/** The exchange-rate provider: a snapshot cache with a time to live, negative caching before the
    first success, the stale snapshot on later failures, and copies in and out. Times are
    nanoseconds; what the base provider and the bank answer are inputs of each call. */
module RateCache {
  import opened Text

  const MINIMUM_CACHE_TTL: int := 300_000_000_000

  datatype Result<+T, +E> = Ok(value: T) | Err(error: E)

  datatype Invalidity =
    | ServiceFeeOutOfRange | DepositOutOfRange | NegativeShippingFee
    | NoCurrencies | EmptyCurrency | RateMissing(code: string) | RateNotPositive(code: string)

  datatype RateError =
    | BaseFailed(base: nat) | FetchFailed(cause: nat) | NotQuoted(code: string) | Invalid(reason: Invalidity)

  /** The contents of a rates record. */
  datatype Snapshot = Snapshot(serviceFeePercent: int, shippingFee: int, depositPercent: int,
                               currencies: seq<string>, rates: map<string, int>, effectiveAt: int)

  /** One decoded entry of the bank's list: the selling rate is None when it does not parse. */
  datatype Quote = Quote(currency: string, sell: Option<int>)
  datatype Feed = Feed(quotes: seq<Quote>, dateTime: Option<int>)

  function Code(currency: string): string {
    ToUpper(TrimSpace(currency))
  }

  /** The code of a currency depends neither on the case of its letters nor on blanks around it, and
      has neither small letters nor blanks at its ends. */
  lemma {:induction false} CodeMeans(a: string, b: string, before: string, after: string)
    requires SameLetters(a, b)
    requires forall k :: 0 <= k < |before| ==> IsSpace(before[k])
    requires forall k :: 0 <= k < |after| ==> IsSpace(after[k])
    ensures Code(a) == Code(before + b + after)
    ensures forall i :: 0 <= i < |Code(a)| ==> !('a' <= Code(a)[i] <= 'z')
    ensures TrimSpace(Code(a)) == Code(a)
  {
    SameFolded(a, b);
    var i, j := TrimSpaceMeans(b);
    TrimmedPart(before + b + after, |before| + i, |before| + j) by { PaddedBlanks(before, b, after, i, j); }
    assert (before + b + after)[|before| + i..|before| + j] == b[i..j];
    FoldingMeans(TrimSpace(a));
    FoldedIsTrimmed(a);
  }

  lemma {:induction false} PaddedBlanks(before: string, b: string, after: string, i: nat, j: nat)
    requires i <= j <= |b| && forall k :: 0 <= k < i || j <= k < |b| ==> IsSpace(b[k])
    requires forall k :: 0 <= k < |before| ==> IsSpace(before[k])
    requires forall k :: 0 <= k < |after| ==> IsSpace(after[k])
    ensures var s := before + b + after;
            forall k :: 0 <= k < |before| + i || |before| + j <= k < |s| ==> IsSpace(s[k])
  {
    hide IsSpace;
  }

  lemma {:induction false} FoldedIsTrimmed(a: string)
    ensures TrimSpace(ToUpper(TrimSpace(a))) == ToUpper(TrimSpace(a))
  {
    var i, j := TrimSpaceMeans(a);
    var t := TrimSpace(a);
    FoldingMeans(t);
    forall k | 0 <= k < |t| ensures IsSpace(ToUpper(t)[k]) <==> IsSpace(t[k]) { LetterFolded(t[k], ToUpper(t)[k]); }
    TrimSpaceKeeps(ToUpper(t));
  }

  // ---- Validation ----

  function CurrencyProblem(currencies: seq<string>, rates: map<string, int>): Option<Invalidity> {
    if currencies == [] then None
    else
      var code := Code(currencies[0]);
      if code == "" then Some(EmptyCurrency)
      else if code !in rates then Some(RateMissing(code))
      else if rates[code] <= 0 then Some(RateNotPositive(code))
      else CurrencyProblem(currencies[1..], rates)
  }

  function Validity(s: Snapshot): Option<Invalidity> {
    if !(0 <= s.serviceFeePercent <= 100) then Some(ServiceFeeOutOfRange)
    else if !(0 <= s.depositPercent <= 100) then Some(DepositOutOfRange)
    else if s.shippingFee < 0 then Some(NegativeShippingFee)
    else if s.currencies == [] then Some(NoCurrencies)
    else CurrencyProblem(s.currencies, s.rates)
  }

  lemma {:induction false} CurrenciesPriced(currencies: seq<string>, rates: map<string, int>)
    ensures CurrencyProblem(currencies, rates).None? <==>
            forall i :: 0 <= i < |currencies| ==>
              Code(currencies[i]) != "" && Code(currencies[i]) in rates && rates[Code(currencies[i])] > 0
    ensures forall reason :: CurrencyProblem(currencies, rates) == Some(reason) ==>
              exists i :: 0 <= i < |currencies| && reason ==
                (if Code(currencies[i]) == "" then EmptyCurrency
                 else if Code(currencies[i]) !in rates then RateMissing(Code(currencies[i]))
                 else RateNotPositive(Code(currencies[i])))
  {
    if currencies == [] {
    } else {
      var c := currencies[0];
      assert currencies == [c] + currencies[1..];
      CurrenciesPriced(currencies[1..], rates);
    }
  }

  /** A snapshot validates exactly when its percentages and fee are in range and every one of a
      non-empty list of currencies has a positive rate under its normalised code. */
  lemma {:induction false} ValidityMeans(s: Snapshot)
    ensures Validity(s).None? <==>
            && 0 <= s.serviceFeePercent <= 100 && 0 <= s.depositPercent <= 100 && s.shippingFee >= 0
            && s.currencies != []
            && forall i :: 0 <= i < |s.currencies| ==>
                 Code(s.currencies[i]) != "" && Code(s.currencies[i]) in s.rates && s.rates[Code(s.currencies[i])] > 0
  {
    CurrenciesPriced(s.currencies, s.rates);
  }

  // ---- The bank's answer ----

  /** The rate the bank quotes for a code: the last entry that names it and parses. */
  function QuotedRate(quotes: seq<Quote>, code: string): Option<int> {
    if quotes == [] || code == "" then None
    else
      var q := quotes[|quotes| - 1];
      if Code(q.currency) == code && q.sell.Some? then q.sell else QuotedRate(quotes[..|quotes| - 1], code)
  }

  function FirstUnquoted(quotes: seq<Quote>, currencies: seq<string>): (missing: Option<string>)
    ensures missing.None? ==> forall i :: 0 <= i < |currencies| ==> QuotedRate(quotes, Code(currencies[i])).Some?
  {
    if currencies == [] then None
    else if QuotedRate(quotes, Code(currencies[0])).None? then Some(Code(currencies[0]))
    else FirstUnquoted(quotes, currencies[1..])
  }

  function Selected(quotes: seq<Quote>, currencies: seq<string>): map<string, int>
    requires forall i :: 0 <= i < |currencies| ==> QuotedRate(quotes, Code(currencies[i])).Some?
  {
    map c | c in currencies :: Code(c) := QuotedRate(quotes, Code(c)).value
  }

  /** What a fetch yields: the selected rates and their time, or why there are none. */
  function Fetched(currencies: seq<string>, now: int, feed: Result<Feed, nat>)
    : Result<(map<string, int>, int), RateError>
  {
    if feed.Err? then Err(FetchFailed(feed.error))
    else
      var missing := FirstUnquoted(feed.value.quotes, currencies);
      if missing.Some? then Err(NotQuoted(missing.value))
      else
        var at := if feed.value.dateTime.Some? then feed.value.dateTime.value else now;
        Ok((Selected(feed.value.quotes, currencies), at))
  }

  // ---- The cache on values ----

  datatype Cache = Cache(snapshot: Option<Snapshot>, expiresAt: int, lastErr: Option<RateError>)
  datatype Call = Call(now: int, base: Result<Snapshot, nat>, feed: Result<Feed, nat>)
  datatype Reply = Reply(result: Result<Snapshot, RateError>, fetched: bool)

  predicate Fresh(c: Cache, now: int) {
    now < c.expiresAt && (c.snapshot.Some? || c.lastErr.Some?)
  }

  function Answer(c: Cache, ttl: int, call: Call): (Cache, Reply) {
    if Fresh(c, call.now) then
      (c, Reply(if c.snapshot.Some? then Ok(c.snapshot.value) else Err(c.lastErr.value), false))
    else if call.base.Err? then
      (c, Reply(Err(BaseFailed(call.base.error)), false))
    else
      var fetch := Fetched(call.base.value.currencies, call.now, call.feed);
      if fetch.Err? then
        if c.snapshot.Some? then (c.(expiresAt := call.now + ttl), Reply(Ok(c.snapshot.value), true))
        else (c.(expiresAt := call.now + ttl, lastErr := Some(fetch.error)), Reply(Err(fetch.error), true))
      else
        var s := call.base.value.(rates := fetch.value.0, effectiveAt := fetch.value.1);
        if Validity(s).Some? then (c, Reply(Err(Invalid(Validity(s).value)), true))
        else (Cache(Some(s), call.now + ttl, None), Reply(Ok(s), true))
  }

  /** Any sequence of calls, each answered under the provider's lock. */
  function Run(c: Cache, ttl: int, calls: seq<Call>): (r: (Cache, seq<Reply>))
    ensures |r.1| == |calls|
  {
    if calls == [] then (c, [])
    else
      var before := Run(c, ttl, calls[..|calls| - 1]);
      var last := Answer(before.0, ttl, calls[|calls| - 1]);
      (last.0, before.1 + [last.1])
  }

  predicate Empty(c: Cache) { c.snapshot.None? && c.lastErr.None? }

  /** The n-th reply is the answer in the state the first n calls leave. */
  lemma {:induction false} ReplyAt(c: Cache, ttl: int, calls: seq<Call>, n: nat)
    requires n < |calls|
    ensures Run(c, ttl, calls).1[n] == Answer(Run(c, ttl, calls[..n]).0, ttl, calls[n]).1
    ensures Run(c, ttl, calls[..n + 1]).0 == Answer(Run(c, ttl, calls[..n]).0, ttl, calls[n]).0
    ensures Run(c, ttl, calls).1[..n] == Run(c, ttl, calls[..n]).1
    decreases |calls|
  {
    assert calls[..n + 1][..n] == calls[..n];
    var shorter := calls[..|calls| - 1];
    if n < |calls| - 1 {
      ReplyAt(c, ttl, shorter, n);
      assert shorter[..n] == calls[..n];
      assert Run(c, ttl, calls).1[..n] == Run(c, ttl, shorter).1[..n];
    } else {
      assert shorter == calls[..n];
      assert Run(c, ttl, calls).1[..n] == Run(c, ttl, shorter).1;
    }
  }

  /** The last snapshot any reply carried. */
  function LastAnswered(replies: seq<Reply>): Option<Snapshot> {
    if replies == [] then None
    else if replies[|replies| - 1].result.Ok? then Some(replies[|replies| - 1].result.value)
    else LastAnswered(replies[..|replies| - 1])
  }

  /** The cache holds the last snapshot it handed out, it validates, and there is no error beside it. */
  lemma {:induction false} CacheIsLastAnswer(c: Cache, ttl: int, calls: seq<Call>)
    requires Empty(c)
    ensures var r := Run(c, ttl, calls);
            && r.0.snapshot == LastAnswered(r.1)
            && (r.0.snapshot.Some? ==> Validity(r.0.snapshot.value).None? && r.0.lastErr.None?)
  {
    hide Validity, Fetched;
    if calls == [] {
    } else {
      var before := Run(c, ttl, calls[..|calls| - 1]);
      CacheIsLastAnswer(c, ttl, calls[..|calls| - 1]);
      var r := Run(c, ttl, calls);
      assert r.1[..|r.1| - 1] == before.1;
    }
  }

  /** Over any calls, every snapshot returned passes validation. */
  lemma {:induction false} AnswersValidate(c: Cache, ttl: int, calls: seq<Call>, n: nat)
    requires Empty(c) && n < |calls| && Run(c, ttl, calls).1[n].result.Ok?
    ensures Validity(Run(c, ttl, calls).1[n].result.value).None?
  {
    hide Validity, Fetched;
    ReplyAt(c, ttl, calls, n);
    CacheIsLastAnswer(c, ttl, calls[..n]);
  }

  predicate Contacted(r: Reply) { r.fetched && !(r.result.Err? && r.result.error.Invalid?) }

  /** Once set by a fetch that was not an invalid snapshot, the expiry never moves back. */
  lemma {:induction false} ExpiryHolds(c: Cache, ttl: int, calls: seq<Call>, n: nat, m: nat)
    requires ttl >= 0 && n < m <= |calls| && Contacted(Run(c, ttl, calls).1[n])
    ensures var after := Run(c, ttl, calls[..m]).0;
            after.expiresAt >= calls[n].now + ttl && (after.snapshot.Some? || after.lastErr.Some?)
    decreases m
  {
    hide Validity, Fetched;
    ReplyAt(c, ttl, calls, m - 1);
    if m == n + 1 {
    } else {
      ExpiryHolds(c, ttl, calls, n, m - 1);
    }
  }

  /** After a fetch that did not end in a validation error, no call whose clock is before that
      fetch's time plus the time to live contacts the bank, however the calls between them went and
      even if the clock moves backwards. */
  lemma {:induction false} NoFetchBeforeExpiry(c: Cache, ttl: int, calls: seq<Call>, n: nat, m: nat)
    requires ttl >= MINIMUM_CACHE_TTL && n < m < |calls|
    requires Contacted(Run(c, ttl, calls).1[n]) && calls[m].now < calls[n].now + ttl
    ensures !Run(c, ttl, calls).1[m].fetched
  {
    ExpiryHolds(c, ttl, calls, n, m);
    ReplyAt(c, ttl, calls, m);
  }

  /** The bank's answer is complete but makes a snapshot that does not validate. */
  predicate Refused(call: Call) {
    call.base.Ok? &&
    var fetch := Fetched(call.base.value.currencies, call.now, call.feed);
    fetch.Ok? && Validity(call.base.value.(rates := fetch.value.0, effectiveAt := fetch.value.1)).Some?
  }

  /** A refused answer is the one outcome the cache does not remember: of two consecutive calls within
      the time to live, the second fetches exactly when the first one's answer was refused. */
  lemma {:induction false} RefetchIffInvalid(c: Cache, ttl: int, calls: seq<Call>, n: nat)
    requires ttl >= MINIMUM_CACHE_TTL && n + 1 < |calls| && Run(c, ttl, calls).1[n].fetched
    requires calls[n].now <= calls[n + 1].now < calls[n].now + ttl && calls[n + 1].base.Ok?
    ensures Run(c, ttl, calls).1[n + 1].fetched <==> Refused(calls[n])
    ensures Refused(calls[n]) <==> !Contacted(Run(c, ttl, calls).1[n])
  {
    hide Validity, FirstUnquoted, Selected;
    ReplyAt(c, ttl, calls, n);
    ReplyAt(c, ttl, calls, n + 1);
  }

  /** After one success a transport failure never surfaces: a call fails exactly when the time to
      live is over and the base provider fails or the fetched snapshot is invalid, and every answer
      that is not a newly fetched snapshot is the last one returned. */
  lemma {:induction false} FailuresServeTheLastSnapshot(c: Cache, ttl: int, calls: seq<Call>, n: nat, m: nat)
    requires Empty(c) && n < m < |calls| && Run(c, ttl, calls).1[n].result.Ok?
    ensures var replies := Run(c, ttl, calls).1;
            var r := replies[m];
            && (r.result.Err? <==>
                  !Fresh(Run(c, ttl, calls[..m]).0, calls[m].now) && (calls[m].base.Err? || Refused(calls[m])))
            && (r.result.Err? ==> r.result.error.BaseFailed? || r.result.error.Invalid?)
            && LastAnswered(replies[..m]).Some?
            && (r.result.Ok?
                 && !(r.fetched && calls[m].base.Ok?
                      && Fetched(calls[m].base.value.currencies, calls[m].now, calls[m].feed).Ok?) ==>
                  r.result.value == LastAnswered(replies[..m]).value)
  {
    hide Validity, FirstUnquoted, Selected;
    var replies := Run(c, ttl, calls).1;
    ReplyAt(c, ttl, calls, m);
    CacheIsLastAnswer(c, ttl, calls[..m]);
    AnsweredStays(replies[..m], n);
  }

  /** So a refresh can fail although a good snapshot is at hand: the bank quotes a rate that rounds to
      zero. */
  lemma {:induction false} InvalidRefreshSurfaces()
    ensures var base := Snapshot(5, 120_000, 70, ["USD"], map[], 0);
            var good := Call(0, Ok(base), Ok(Feed([Quote("USD", Some(25_000))], None)));
            var bad := Call(MINIMUM_CACHE_TTL, Ok(base), Ok(Feed([Quote("USD", Some(0))], None)));
            var first := Answer(Cache(None, 0, None), MINIMUM_CACHE_TTL, good);
            first.1.result.Ok?
              && Answer(first.0, MINIMUM_CACHE_TTL, bad).1.result == Err(Invalid(RateNotPositive("USD")))
  {
    var base := Snapshot(5, 120_000, 70, ["USD"], map[], 0);
    var good := Call(0, Ok(base), Ok(Feed([Quote("USD", Some(25_000))], None)));
    var bad := Call(MINIMUM_CACHE_TTL, Ok(base), Ok(Feed([Quote("USD", Some(0))], None)));
    TrimSpaceKeeps("USD");
    assert Code("USD") == "USD" by { assert ToUpper("USD") == "USD"; }
    hide Code, QuotedRate, FirstUnquoted, Selected;
    SingleQuote(25_000);
    SingleQuote(0);
    assert CurrencyProblem(["USD"], map["USD" := 25_000]).None?;
    assert CurrencyProblem(["USD"], map["USD" := 0]) == Some(RateNotPositive("USD"));
    hide CurrencyProblem, Fetched;
  }

  lemma {:induction false} SingleQuote(sell: int)
    requires Code("USD") == "USD"
    ensures Fetched(["USD"], 0, Ok(Feed([Quote("USD", Some(sell))], None))) == Ok((map["USD" := sell], 0))
    ensures Fetched(["USD"], MINIMUM_CACHE_TTL, Ok(Feed([Quote("USD", Some(sell))], None)))
            == Ok((map["USD" := sell], MINIMUM_CACHE_TTL))
  {
    hide Code;
    assert QuotedRate([Quote("USD", Some(sell))], "USD") == Some(sell);
    assert FirstUnquoted([Quote("USD", Some(sell))], ["USD"]).None?;
    assert Selected([Quote("USD", Some(sell))], ["USD"]) == map["USD" := sell];
  }

  lemma {:induction false} AnsweredStays(replies: seq<Reply>, n: nat)
    requires n < |replies| && replies[n].result.Ok?
    ensures LastAnswered(replies).Some?
  {
    if n == |replies| - 1 {
    } else {
      AnsweredStays(replies[..|replies| - 1], n);
    }
  }

  // ---- Every answer from the calls alone ----

  /** The entry of the bank's list that counts for a code: it names it, its rate parses, and no later
      entry does both. */
  ghost predicate Counts(quotes: seq<Quote>, code: string, k: int) {
    && 0 <= k < |quotes| && Code(quotes[k].currency) == code && quotes[k].sell.Some?
    && forall j :: k < j < |quotes| ==> Code(quotes[j].currency) != code || quotes[j].sell.None?
  }

  ghost predicate IsQuoted(quotes: seq<Quote>, code: string) {
    code != "" && exists k :: Counts(quotes, code, k)
  }

  lemma {:induction false} QuotedMeans(quotes: seq<Quote>, code: string)
    ensures QuotedRate(quotes, code).Some? <==> IsQuoted(quotes, code)
    ensures forall k :: code != "" && Counts(quotes, code, k) ==> QuotedRate(quotes, code) == quotes[k].sell
  {
    hide Code;
    if quotes == [] || code == "" {
    } else {
      var init, n := quotes[..|quotes| - 1], |quotes| - 1;
      QuotedMeans(init, code);
      var last := Code(quotes[n].currency) == code && quotes[n].sell.Some?;
      if last {
        assert Counts(quotes, code, n);
      } else {
        forall k ensures Counts(quotes, code, k) <==> Counts(init, code, k) {
          assert 0 <= k < n ==> quotes[k] == init[k];
        }
      }
    }
  }

  /** The bank quotes all the currencies, and s is the base's record with their rates and their time. */
  ghost predicate Reflects(s: Snapshot, call: Call)
    requires call.base.Ok? && call.feed.Ok?
  {
    var base, feed := call.base.value, call.feed.value;
    && s.serviceFeePercent == base.serviceFeePercent && s.depositPercent == base.depositPercent
    && s.shippingFee == base.shippingFee && s.currencies == base.currencies
    && s.effectiveAt == (if feed.dateTime.Some? then feed.dateTime.value else call.now)
    && (forall code :: code in s.rates <==> exists i :: 0 <= i < |base.currencies| && Code(base.currencies[i]) == code)
    && (forall code, k ::
          code in s.rates && Counts(feed.quotes, code, k) ==> feed.quotes[k].sell == Some(s.rates[code]))
  }

  ghost predicate Complete(call: Call)
    requires call.base.Ok? && call.feed.Ok?
  {
    forall i :: 0 <= i < |call.base.value.currencies| ==>
      IsQuoted(call.feed.value.quotes, Code(call.base.value.currencies[i]))
  }

  lemma {:induction false} FetchedMeans(call: Call)
    requires call.base.Ok? && call.feed.Ok?
    ensures Fetched(call.base.value.currencies, call.now, call.feed).Ok? <==> Complete(call)
    ensures Complete(call) ==>
              var (rates, at) := Fetched(call.base.value.currencies, call.now, call.feed).value;
              Reflects(call.base.value.(rates := rates, effectiveAt := at), call)
  {
    var quotes, currencies := call.feed.value.quotes, call.base.value.currencies;
    hide Code, QuotedRate, Counts, IsQuoted, FirstUnquoted, Selected, Reflects;
    FirstIsMissing(quotes, currencies);
    forall i | 0 <= i < |currencies|
      ensures QuotedRate(quotes, Code(currencies[i])).Some? <==> IsQuoted(quotes, Code(currencies[i])) {
      QuotedMeans(quotes, Code(currencies[i]));
    }
    if Complete(call) { SelectedReflects(call); }
  }

  lemma {:induction false} SelectedReflects(call: Call)
    requires call.base.Ok? && call.feed.Ok?
    requires forall i :: 0 <= i < |call.base.value.currencies| ==>
               QuotedRate(call.feed.value.quotes, Code(call.base.value.currencies[i])).Some?
    ensures var rates := Selected(call.feed.value.quotes, call.base.value.currencies);
            var at := if call.feed.value.dateTime.Some? then call.feed.value.dateTime.value else call.now;
            Reflects(call.base.value.(rates := rates, effectiveAt := at), call)
  {
    var quotes, currencies := call.feed.value.quotes, call.base.value.currencies;
    hide Code, QuotedRate, Counts;
    var rates := Selected(quotes, currencies);
    forall code, k | code in rates && Counts(quotes, code, k) ensures quotes[k].sell == Some(rates[code]) {
      QuotedMeans(quotes, code);
      QuotedIsNamed(quotes, code);
    }
  }

  lemma {:induction false} QuotedIsNamed(quotes: seq<Quote>, code: string)
    ensures QuotedRate(quotes, code).Some? ==> code != ""
  {
  }

  lemma {:induction false} FirstIsMissing(quotes: seq<Quote>, currencies: seq<string>)
    ensures FirstUnquoted(quotes, currencies).None? <==>
            forall i :: 0 <= i < |currencies| ==> QuotedRate(quotes, Code(currencies[i])).Some?
    ensures forall code :: FirstUnquoted(quotes, currencies) == Some(code) ==>
              exists i :: 0 <= i < |currencies| && Code(currencies[i]) == code && QuotedRate(quotes, code).None?
  {
    hide Code, QuotedRate;
    if currencies == [] {
    } else {
      FirstIsMissing(quotes, currencies[1..]);
      assert currencies == [currencies[0]] + currencies[1..];
    }
  }

  /** n is the last reply before m that came of contacting the bank and was no validation error. */
  ghost predicate LastContact(replies: seq<Reply>, m: nat, n: int) {
    0 <= n < m <= |replies| && Contacted(replies[n]) && forall i :: n < i < m ==> !Contacted(replies[i])
  }

  /** The cache is the reply of the last contact and expires a time to live after it. */
  ghost predicate Holds(c: Cache, ttl: int, calls: seq<Call>, replies: seq<Reply>)
    requires |replies| == |calls|
  {
    && (forall n :: LastContact(replies, |replies|, n) ==>
          && c.expiresAt == calls[n].now + ttl && !Empty(c)
          && replies[n].result == if c.snapshot.Some? then Ok(c.snapshot.value) else Err(c.lastErr.value))
    && ((forall n :: 0 <= n < |replies| ==> !Contacted(replies[n])) ==> Empty(c))
  }

  lemma {:induction false} CacheHolds(c: Cache, ttl: int, calls: seq<Call>)
    requires Empty(c)
    ensures Holds(Run(c, ttl, calls).0, ttl, calls, Run(c, ttl, calls).1)
  {
    hide Answer, Holds, Contacted, LastContact;
    if calls == [] {
      NothingHeld(c, ttl);
    } else {
      var init := calls[..|calls| - 1];
      CacheHolds(c, ttl, init);
      HoldsStep(Run(c, ttl, init).0, ttl, init, Run(c, ttl, init).1, calls[|calls| - 1]);
      assert init + [calls[|calls| - 1]] == calls;
    }
  }

  lemma {:induction false} NothingHeld(c: Cache, ttl: int)
    requires Empty(c)
    ensures Holds(c, ttl, [], [])
  {
  }

  lemma {:induction false} HoldsStep(c: Cache, ttl: int, calls: seq<Call>, replies: seq<Reply>, call: Call)
    requires |replies| == |calls| && Holds(c, ttl, calls, replies)
    ensures var (c', reply) := Answer(c, ttl, call); Holds(c', ttl, calls + [call], replies + [reply])
  {
    hide FirstUnquoted, Selected, Validity;
    var (c', reply) := Answer(c, ttl, call);
    var replies' := replies + [reply];
    if Contacted(reply) {
      assert replies'[|replies|] == reply;
    } else {
      assert c' == c;
      forall n | LastContact(replies', |replies'|, n) ensures LastContact(replies, |replies|, n) {
        assert forall i :: n < i < |replies| ==> replies'[i] == replies[i];
      }
      if forall n :: 0 <= n < |replies'| ==> !Contacted(replies'[n]) {
        assert forall n :: 0 <= n < |replies| ==> replies'[n] == replies[n];
      }
    }
  }

  /** The answer is still held: the last contact is less than a time to live ago. */
  ghost predicate IsHeld(ttl: int, calls: seq<Call>, replies: seq<Reply>, m: nat, n: int)
    requires m < |calls| == |replies|
  {
    LastContact(replies, m, n) && calls[m].now < calls[n].now + ttl
  }

  /** From an empty cache every answer is determined by the calls. Within the time to live of the last
      contact it repeats that reply without a fetch. Otherwise the base provider's error is passed on,
      or the bank is contacted: a complete list makes a new snapshot, handed out if it validates and
      refused if not, and without one the last snapshot handed out is repeated, if there is any. */
  lemma {:induction false} EveryAnswer(c: Cache, ttl: int, calls: seq<Call>, m: nat)
    requires Empty(c) && m < |calls|
    ensures var replies, call := Run(c, ttl, calls).1, calls[m];
            && (forall n :: IsHeld(ttl, calls, replies, m, n) ==> replies[m] == Reply(replies[n].result, false))
            && ((forall n :: !IsHeld(ttl, calls, replies, m, n)) ==>
                  if call.base.Err? then replies[m] == Reply(Err(BaseFailed(call.base.error)), false)
                  else
                    && replies[m].fetched
                    && if call.feed.Ok? && Complete(call)
                       then exists s :: Reflects(s, call)
                                        && replies[m].result == (if Validity(s).None? then Ok(s)
                                                                 else Err(Invalid(Validity(s).value)))
                       else if LastAnswered(replies[..m]).Some?
                       then replies[m].result == Ok(LastAnswered(replies[..m]).value)
                       else if call.feed.Err? then replies[m].result == Err(FetchFailed(call.feed.error))
                       else exists i :: 0 <= i < |call.base.value.currencies|
                                        && !IsQuoted(call.feed.value.quotes, Code(call.base.value.currencies[i]))
                                        && replies[m].result == Err(NotQuoted(Code(call.base.value.currencies[i]))))
  {
    hide Validity, Fetched, Code, Reflects, Complete, Contacted, IsQuoted;
    var replies, call, before := Run(c, ttl, calls).1, calls[m], Run(c, ttl, calls[..m]);
    ReplyAt(c, ttl, calls, m);
    CacheHolds(c, ttl, calls[..m]);
    CacheIsLastAnswer(c, ttl, calls[..m]);
    assert forall n :: 0 <= n < m ==> replies[n] == before.1[n];
    assert forall n :: LastContact(replies, m, n) <==> LastContact(before.1, m, n);
    HeldIsFresh(before.0, ttl, calls, replies, before.1, m);
    if call.base.Ok? {
      if call.feed.Ok? { FetchFacts(call); } else { FeedFailed(call); }
    }
  }

  lemma {:induction false} HeldIsFresh(c: Cache, ttl: int, calls: seq<Call>, replies: seq<Reply>, before: seq<Reply>,
                                       m: nat)
    requires m < |calls| == |replies| && before == replies[..m] && Holds(c, ttl, calls[..m], before)
    ensures Fresh(c, calls[m].now) <==> exists n :: IsHeld(ttl, calls, replies, m, n)
  {
    assert forall n :: LastContact(replies, m, n) <==> LastContact(before, m, n) by {
      assert forall n :: 0 <= n < m ==> replies[n] == before[n];
    }
    if exists n :: 0 <= n < m && Contacted(before[n]) {
      var n := LastOne(before, m);
      assert LastContact(replies, m, n);
      if Fresh(c, calls[m].now) { assert IsHeld(ttl, calls, replies, m, n); }
    }
  }

  lemma {:induction false} LastOne(replies: seq<Reply>, m: nat) returns (n: int)
    requires m <= |replies| && exists i :: 0 <= i < m && Contacted(replies[i])
    ensures LastContact(replies, m, n)
  {
    hide Contacted;
    n := m - 1;
    if !Contacted(replies[m - 1]) { n := LastOne(replies, m - 1); }
  }

  lemma {:induction false} FeedFailed(call: Call)
    requires call.base.Ok? && call.feed.Err?
    ensures Fetched(call.base.value.currencies, call.now, call.feed) == Err(FetchFailed(call.feed.error))
  {
  }

  lemma {:induction false} FetchFacts(call: Call)
    requires call.base.Ok? && call.feed.Ok?
    ensures var fetch := Fetched(call.base.value.currencies, call.now, call.feed);
            if Complete(call) then
              fetch.Ok? && Reflects(call.base.value.(rates := fetch.value.0, effectiveAt := fetch.value.1), call)
            else
              fetch.Err? && exists i :: 0 <= i < |call.base.value.currencies|
                                        && !IsQuoted(call.feed.value.quotes, Code(call.base.value.currencies[i]))
                                        && fetch.error == NotQuoted(Code(call.base.value.currencies[i]))
  {
    hide Code, QuotedRate, Reflects, Complete, IsQuoted;
    FetchedMeans(call);
    FirstIsMissing(call.feed.value.quotes, call.base.value.currencies);
    forall code ensures QuotedRate(call.feed.value.quotes, code).Some? <==> IsQuoted(call.feed.value.quotes, code) {
      QuotedMeans(call.feed.value.quotes, code);
    }
  }

  /** A fetch that succeeded leaves validation little to refuse: a list of rates always names every
      currency, so with sound settings an answer is refused exactly when some quoted rate rounded
      down to nothing. */
  lemma {:induction false} OnlyUselessRatesAreRefused(base: Snapshot, now: int, feed: Result<Feed, nat>)
    requires Fetched(base.currencies, now, feed).Ok? && base.currencies != []
    requires 0 <= base.serviceFeePercent <= 100 && 0 <= base.depositPercent <= 100 && base.shippingFee >= 0
    ensures var (rates, at) := Fetched(base.currencies, now, feed).value;
            Validity(base.(rates := rates, effectiveAt := at)).Some? <==>
            exists i :: 0 <= i < |base.currencies| && QuotedRate(feed.value.quotes, Code(base.currencies[i])).value <= 0
  {
    hide Code, CurrencyProblem;
    var (rates, at) := Fetched(base.currencies, now, feed).value;
    CurrenciesPriced(base.currencies, rates);
  }

  // ---- The provider in memory ----

  /** A Go map from currency to rate, shared by every record that refers to it. */
  class RateTable {
    var entries: map<string, int>

    constructor (entries: map<string, int>)
      ensures this.entries == entries
    {
      this.entries := entries;
    }
  }

  /** A rates record: copying it copies the references, not the list and the table. */
  datatype SystemRates = SystemRates(serviceFeePercent: int, shippingFee: int, depositPercent: int,
                                     currencies: array<string>, rates: RateTable, effectiveAt: int)

  function View(r: SystemRates): Snapshot
    reads r.currencies, r.rates
  {
    Snapshot(r.serviceFeePercent, r.shippingFee, r.depositPercent, r.currencies[..], r.rates.entries, r.effectiveAt)
  }

  function ViewResult(r: Result<SystemRates, RateError>): Result<Snapshot, RateError>
    reads if r.Ok? then {r.value.currencies, r.value.rates} else {}
  {
    match r
    case Ok(value) => Ok(View(value))
    case Err(error) => Err(error)
  }

  /** A list of its own holding the given names. */
  method NewList(names: seq<string>) returns (a: array<string>)
    ensures fresh(a) && a[..] == names
  {
    a := new string[|names|];
    for i := 0 to |names|
      invariant forall k :: 0 <= k < i ==> a[k] == names[k]
    {
      a[i] := names[i];
    }
  }

  /** clone: a record with the same contents and a list and a table of its own. */
  method Clone(source: SystemRates) returns (copy: SystemRates)
    ensures fresh(copy.currencies) && fresh(copy.rates) && View(copy) == View(source)
  {
    var currencies := NewList(source.currencies[..]);
    var rates := new RateTable(map[]);
    var todo := source.rates.entries.Keys;
    while todo != {}
      invariant todo <= source.rates.entries.Keys
      invariant rates.entries.Keys == source.rates.entries.Keys - todo
      invariant forall code :: code in rates.entries ==> rates.entries[code] == source.rates.entries[code]
      modifies rates
      decreases todo
    {
      var code :| code in todo;
      rates.entries := rates.entries[code := source.rates.entries[code]];
      todo := todo - {code};
    }
    assert rates.entries == source.rates.entries;
    copy := source.(currencies := currencies, rates := rates);
  }

  /** The table of parsed quotes; a later quote for the same code overwrites an earlier one. */
  method Available(quotes: seq<Quote>) returns (available: map<string, int>)
    ensures forall code :: code in available <==> QuotedRate(quotes, code).Some?
    ensures forall code :: code in available ==> available[code] == QuotedRate(quotes, code).value
  {
    hide Code;
    available := map[];
    for i := 0 to |quotes|
      invariant forall code :: code in available <==> QuotedRate(quotes[..i], code).Some?
      invariant forall code :: code in available ==> available[code] == QuotedRate(quotes[..i], code).value
    {
      assert quotes[..i + 1][..i] == quotes[..i];
      var code := Code(quotes[i].currency);
      if code != "" && quotes[i].sell.Some? {
        available := available[code := quotes[i].sell.value];
      }
    }
    assert quotes[..|quotes|] == quotes;
  }

  /** The rate of each supported currency out of the table, up to the first that is not in it. */
  method Select(quotes: seq<Quote>, available: map<string, int>, currencies: seq<string>)
    returns (selected: map<string, int>, missing: Option<string>)
    requires forall code :: code in available <==> QuotedRate(quotes, code).Some?
    requires forall code :: code in available ==> available[code] == QuotedRate(quotes, code).value
    ensures missing == FirstUnquoted(quotes, currencies)
    ensures missing.None? ==> selected == Selected(quotes, currencies)
  {
    hide Code, QuotedRate;
    selected, missing := map[], None;
    for i := 0 to |currencies|
      invariant FirstUnquoted(quotes, currencies) == FirstUnquoted(quotes, currencies[i..])
      invariant forall k :: 0 <= k < i ==> QuotedRate(quotes, Code(currencies[k])).Some?
      invariant selected == Selected(quotes, currencies[..i])
    {
      assert currencies[i..][0] == currencies[i] && currencies[i..][1..] == currencies[i + 1..];
      var code := Code(currencies[i]);
      if code !in available {
        return selected, Some(code);
      }
      SelectedMore(quotes, currencies, i);
      selected := selected[code := available[code]];
    }
    assert currencies[..|currencies|] == currencies;
  }

  lemma {:induction false} SelectedMore(quotes: seq<Quote>, currencies: seq<string>, i: nat)
    requires i < |currencies| && forall k :: 0 <= k <= i ==> QuotedRate(quotes, Code(currencies[k])).Some?
    ensures Selected(quotes, currencies[..i + 1])
         == Selected(quotes, currencies[..i])[Code(currencies[i]) := QuotedRate(quotes, Code(currencies[i])).value]
  {
    hide Code, QuotedRate;
    assert currencies[..i + 1] == currencies[..i] + [currencies[i]];
  }

  /** The part of fetch after the response was decoded: the rates, or the first code not quoted. */
  method Fetch(currencies: seq<string>, now: int, feed: Result<Feed, nat>)
    returns (r: Result<(RateTable, int), RateError>)
    ensures r.Ok? <==> Fetched(currencies, now, feed).Ok?
    ensures r.Err? ==> r.error == Fetched(currencies, now, feed).error
    ensures r.Ok? ==> fresh(r.value.0) && (r.value.0.entries, r.value.1) == Fetched(currencies, now, feed).value
  {
    hide Code, QuotedRate, FirstUnquoted, Selected;
    if feed.Err? { return Err(FetchFailed(feed.error)); }
    var available := Available(feed.value.quotes);
    var selected, missing := Select(feed.value.quotes, available, currencies);
    if missing.Some? { return Err(NotQuoted(missing.value)); }
    var table := new RateTable(selected);
    r := Ok((table, if feed.value.dateTime.Some? then feed.value.dateTime.value else now));
  }

  class Provider {
    const cacheTTL: int
    var cached: SystemRates
    var expiresAt: int
    var hasCache: bool
    var lastErr: Option<RateError>

    constructor (cacheTTL: int)
      ensures this.cacheTTL == cacheTTL && Empty(State()) && fresh(Repr())
    {
      var none := new string[0];
      var table := new RateTable(map[]);
      this.cacheTTL := cacheTTL;
      cached := SystemRates(0, 0, 0, none, table, 0);
      expiresAt, hasCache, lastErr := 0, false, None;
    }

    /** The objects the provider keeps for itself. */
    ghost function Repr(): set<object>
      reads this
    {
      {cached.currencies, cached.rates}
    }

    ghost function State(): Cache
      reads this, Repr()
    {
      Cache(if hasCache then Some(View(cached)) else None, expiresAt, lastErr)
    }

    /** One call: the base provider's answer and the bank's are given; the base's record may be
        shared with anyone. The returned record is the caller's alone. */
    method GetSystemRates(now: int, base: Result<SystemRates, nat>, feed: Result<Feed, nat>)
      returns (r: Result<SystemRates, RateError>, fetched: bool)
      modifies this
      ensures (State(), Reply(ViewResult(r), fetched)) ==
              Answer(old(State()), cacheTTL,
                Call(now, if base.Ok? then Ok(old(View(base.value))) else Err(base.error), feed))
      ensures r.Ok? ==> fresh(r.value.currencies) && fresh(r.value.rates)
                        && r.value.currencies !in Repr() && r.value.rates !in Repr()
      ensures Repr() == old(Repr()) || fresh(Repr())
    {
      hide Fetched, Validity;
      if hasCache && now < expiresAt {
        var copy := Clone(cached);
        return Ok(copy), false;
      }
      if !hasCache && lastErr.Some? && now < expiresAt {
        return Err(lastErr.value), false;
      }
      if base.Err? {
        return Err(BaseFailed(base.error)), false;
      }
      var live := Fetch(base.value.currencies[..], now, feed);
      if live.Err? {
        expiresAt := now + cacheTTL;
        if hasCache {
          var copy := Clone(cached);
          return Ok(copy), true;
        }
        lastErr := Some(live.error);
        return Err(live.error), true;
      }
      var combined := base.value.(rates := live.value.0, effectiveAt := live.value.1);
      var problem := Validity(View(combined));
      if problem.Some? {
        return Err(Invalid(problem.value)), true;
      }
      cached := Clone(combined);
      expiresAt := now + cacheTTL;
      hasCache := true;
      lastErr := None;
      var copy := Clone(combined);
      return Ok(copy), true;
    }
  }

  /** New, as far as the time to live goes. */
  method NewProvider(cacheTTL: int) returns (p: Option<Provider>)
    ensures p.Some? <==> cacheTTL >= 300_000_000_000
    ensures p.Some? ==>
              fresh(p.value) && fresh(p.value.Repr()) && p.value.cacheTTL == cacheTTL && Empty(p.value.State())
  {
    if cacheTTL < MINIMUM_CACHE_TTL { return None; }
    var provider := new Provider(cacheTTL);
    return Some(provider);
  }

  /** A call on a base provider that hands out a record of its own. */
  method Request(p: Provider, call: Call) returns (r: Result<SystemRates, RateError>, fetched: bool)
    modifies p
    ensures (p.State(), Reply(ViewResult(r), fetched)) == Answer(old(p.State()), p.cacheTTL, call)
    ensures r.Ok? ==> fresh(r.value.currencies) && fresh(r.value.rates)
                      && r.value.currencies !in p.Repr() && r.value.rates !in p.Repr()
    ensures p.Repr() == old(p.Repr()) || fresh(p.Repr())
  {
    hide Answer;
    var base: Result<SystemRates, nat>;
    if call.base.Ok? {
      var s := call.base.value;
      var currencies := NewList(s.currencies);
      var table := new RateTable(s.rates);
      base := Ok(SystemRates(s.serviceFeePercent, s.shippingFee, s.depositPercent, currencies, table, s.effectiveAt));
    } else {
      base := Err(call.base.error);
    }
    r, fetched := p.GetSystemRates(call.now, base, call.feed);
  }

  /** A caller either asks for the rates or writes into a record it was given earlier. */
  datatype Step = Ask(call: Call) | Scribble(record: nat, position: nat, name: string, entries: map<string, int>)

  function Asked(steps: seq<Step>): seq<Call> {
    if steps == [] then []
    else
      var before := Asked(steps[..|steps| - 1]);
      match steps[|steps| - 1]
      case Ask(call) => before + [call]
      case Scribble(_, _, _, _) => before
  }

  /** The record's storage is nobody's but its holder's. */
  ghost predicate Apart(r: SystemRates, p: Provider)
    reads p
  {
    r.currencies !in p.Repr() && r.rates !in p.Repr()
  }

  lemma {:induction false} RunStep(c: Cache, ttl: int, steps: seq<Step>, i: nat)
    requires i < |steps|
    ensures var before, after := Run(c, ttl, Asked(steps[..i])), Run(c, ttl, Asked(steps[..i + 1]));
            match steps[i]
            case Ask(call) =>
              after.0 == Answer(before.0, ttl, call).0 && after.1 == before.1 + [Answer(before.0, ttl, call).1]
            case Scribble(_, _, _, _) => after == before
  {
    hide Answer;
    assert steps[..i + 1][..i] == steps[..i];
    var asked := Asked(steps[..i]);
    if steps[i].Ask? {
      assert (asked + [steps[i].call])[..|asked|] == asked;
    }
  }

  /** Copy isolation: whatever callers write into the records they were given, in between and in any
      order, the answers are those of a run in which nobody wrote anything. */
  method Serve(p: Provider, steps: seq<Step>) returns (replies: seq<Reply>)
    modifies p, p.Repr()
    ensures (p.State(), replies) == Run(old(p.State()), p.cacheTTL, Asked(steps))
  {
    hide Answer, Run, Asked;
    ghost var start := p.State();
    replies := [];
    var given: seq<SystemRates> := [];
    NothingAsked(start, p.cacheTTL, steps);
    for i := 0 to |steps|
      invariant p.Repr() == old(p.Repr()) || fresh(p.Repr())
      invariant forall k :: 0 <= k < |given| ==>
                  fresh(given[k].currencies) && fresh(given[k].rates) && Apart(given[k], p)
      invariant (p.State(), replies) == Run(start, p.cacheTTL, Asked(steps[..i]))
    {
      RunStep(start, p.cacheTTL, steps, i);
      match steps[i]
      case Ask(call) =>
        var r, fetched := Request(p, call);
        replies := replies + [Reply(ViewResult(r), fetched)];
        if r.Ok? { given := given + [r.value]; }
      case Scribble(record, position, name, entries) =>
        if record < |given| { Overwrite(given[record], position, name, entries, p); }
    }
    assert steps[..|steps|] == steps;
  }

  /** What a caller may do to a record it was given. */
  method Overwrite(r: SystemRates, position: nat, name: string, entries: map<string, int>, ghost p: Provider)
    requires Apart(r, p)
    modifies r.currencies, r.rates
    ensures p.Repr() == old(p.Repr()) && p.State() == old(p.State())
  {
    r.rates.entries := entries;
    if position < r.currencies.Length { r.currencies[position] := name; }
  }

  lemma {:induction false} NothingAsked(c: Cache, ttl: int, steps: seq<Step>)
    ensures Run(c, ttl, Asked(steps[..0])) == (c, [])
  {
  }
}
