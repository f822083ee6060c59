/** The allow-list of product hosts: exact names and "*." wildcards, and the list of patterns it is
    rebuilt from at start-up. */
module HostAllowList {
  import opened Text

  predicate HasPrefix(s: string, prefix: string) {
    |s| >= |prefix| && s[..|prefix|] == prefix
  }

  predicate HasSuffix(s: string, suffix: string) {
    |s| >= |suffix| && s[|s| - |suffix|..] == suffix
  }

  /** normalizeHost: spaces off, lower case, at most one final dot off. */
  function Normalize(host: string): string {
    var h := ToLower(TrimSpace(host));
    if HasSuffix(h, ".") then h[..|h| - 1] else h
  }

  // ---- Host names ----

  predicate Octet(s: string) {
    s != "" && AllDigits(s) && (|s| == 1 || s[0] != '0') && DigitsValue(s) <= 255
  }

  /** net.ParseIP on strings without a colon. */
  predicate IsIPv4(host: string) {
    var parts := Split(host, '.');
    |parts| == 4 && forall k :: 0 <= k < 4 ==> Octet(parts[k])
  }

  predicate HostChar(c: char) {
    'a' <= c <= 'z' || '0' <= c <= '9' || c == '-'
  }

  predicate Label(s: string) {
    s != "" && |s| <= 63 && s[0] != '-' && s[|s| - 1] != '-' && forall i :: 0 <= i < |s| ==> HostChar(s[i])
  }

  predicate ValidHostname(host: string) {
    IsIPv4(host) ||
    (host != "" && |host| <= 253 && host != "localhost" &&
     var labels := Split(host, '.'); forall k :: 0 <= k < |labels| ==> Label(labels[k]))
  }

  predicate ContainsAny(s: string, chars: string) {
    exists i :: 0 <= i < |s| && s[i] in chars
  }

  // ---- Building a matcher ----

  datatype Refusal = EmptyEntry | NotABareHost | BadWildcard | BadHostname

  /** The matcher, as a value. */
  datatype HostMatcher = HostMatcher(exact: set<string>, wildcards: seq<string>, patterns: seq<string>)

  datatype Built = Built(matcher: HostMatcher) | Refused(entry: nat, reason: Refusal)

  const EMPTY := HostMatcher({}, [], [])

  /** Why a normalised entry is refused, if it is. */
  function RefusalOf(pattern: string): Option<Refusal> {
    if pattern == "" then Some(EmptyEntry)
    else if ContainsAny(pattern, "/:@?#") then Some(NotABareHost)
    else if HasPrefix(pattern, "*.") then
      if !ValidHostname(pattern[2..]) || IsIPv4(pattern[2..]) then Some(BadWildcard) else None
    else if '*' in pattern || !ValidHostname(pattern) then Some(BadHostname)
    else None
  }

  /** The matcher after one more accepted entry: wildcards pile up, exact names are kept once. */
  function With(m: HostMatcher, pattern: string): HostMatcher {
    if HasPrefix(pattern, "*.")
      then m.(wildcards := m.wildcards + [pattern[2..]], patterns := m.patterns + ["*." + pattern[2..]])
    else if pattern in m.exact then m
    else m.(exact := m.exact + {pattern}, patterns := m.patterns + [pattern])
  }

  function Build(entries: seq<string>): Built {
    if entries == [] then Built(EMPTY)
    else
      var n := |entries| - 1;
      var before := Build(entries[..n]);
      if before.Refused? then before
      else
        var refusal := RefusalOf(Normalize(entries[n]));
        if refusal.Some? then Refused(n, refusal.value)
        else Built(With(before.matcher, Normalize(entries[n])))
  }

  lemma {:induction false} RefusedEarly(entries: seq<string>, n: nat)
    requires n <= |entries| && Build(entries[..n]).Refused?
    ensures Build(entries) == Build(entries[..n])
  {
    if n == |entries| {
      assert entries[..n] == entries;
    } else {
      assert entries[..|entries| - 1][..n] == entries[..n];
      RefusedEarly(entries[..|entries| - 1], n);
    }
  }

  /** NewHostMatcher. */
  method NewHostMatcher(entries: seq<string>) returns (r: Built)
    ensures r == Build(entries)
  {
    hide Normalize, ValidHostname, IsIPv4, ContainsAny;
    var exact: set<string> := {};
    var wildcards: seq<string> := [];
    var patterns: seq<string> := [];
    for i := 0 to |entries|
      invariant Build(entries[..i]) == Built(HostMatcher(exact, wildcards, patterns))
    {
      assert entries[..i + 1][..i] == entries[..i];
      var pattern := Normalize(entries[i]);
      if pattern == "" {
        RefusedEarly(entries, i + 1);
        return Refused(i, EmptyEntry);
      }
      if ContainsAny(pattern, "/:@?#") {
        RefusedEarly(entries, i + 1);
        return Refused(i, NotABareHost);
      }
      if HasPrefix(pattern, "*.") {
        var base := pattern[2..];
        if !ValidHostname(base) || IsIPv4(base) {
          RefusedEarly(entries, i + 1);
          return Refused(i, BadWildcard);
        }
        wildcards := wildcards + [base];
        patterns := patterns + ["*." + base];
        continue;
      }
      if '*' in pattern || !ValidHostname(pattern) {
        RefusedEarly(entries, i + 1);
        return Refused(i, BadHostname);
      }
      if pattern !in exact {
        exact := exact + {pattern};
        patterns := patterns + [pattern];
      }
    }
    assert entries[..|entries|] == entries;
    return Built(HostMatcher(exact, wildcards, patterns));
  }

  predicate Match(m: HostMatcher, host: string) {
    var h := Normalize(host);
    h in m.exact || exists k :: 0 <= k < |m.wildcards| && HasSuffix(h, "." + m.wildcards[k]) && h != m.wildcards[k]
  }

  // ---- Normalisation leaves accepted patterns alone ----

  /** A valid name is not empty, ends in a label character and has only label characters and dots. */
  lemma {:induction false} ValidNameShape(host: string)
    requires ValidHostname(host)
    ensures host != "" && HostChar(host[|host| - 1])
    ensures forall i :: 0 <= i < |host| ==> HostChar(host[i]) || host[i] == '.'
  {
    var parts := Split(host, '.');
    assert forall k :: 0 <= k < |parts| ==> parts[k] != "" && forall j :: 0 <= j < |parts[k]| ==> HostChar(parts[k][j]);
    SplitLast(host, '.');
    forall i | 0 <= i < |host| && host[i] != '.' ensures HostChar(host[i]) {
      var k, j := SplitHolds(host, '.', i);
    }
  }

  lemma {:induction false} NormalizeKeeps(s: string)
    requires s != "" && !IsSpace(s[0]) && !IsSpace(s[|s| - 1]) && s[|s| - 1] != '.'
    requires forall i :: 0 <= i < |s| ==> ToLowerChar(s[i]) == s[i]
    ensures Normalize(s) == s
  {
    TrimSpaceKeeps(s);
    assert ToLower(s) == s;
  }

  /** normalizeHost is the identity on every accepted pattern. */
  lemma {:induction false} AcceptedIsNormal(pattern: string)
    requires RefusalOf(pattern).None?
    ensures Normalize(pattern) == pattern
  {
    if HasPrefix(pattern, "*.") {
      ValidNameShape(pattern[2..]);
      assert pattern == ['*', '.'] + pattern[2..];
    } else {
      ValidNameShape(pattern);
    }
    assert forall c :: HostChar(c) || c == '.' || c == '*' ==> !IsSpace(c) && ToLowerChar(c) == c;
    NormalizeKeeps(pattern);
  }

  /** Elsewhere it is not: a second pass changes the result exactly when the first left a dot or a
      space at the end, as on "a.." or "a .". */
  lemma {:induction false} NormalizeTwice(host: string)
    ensures var n := Normalize(host);
            Normalize(n) == n <==> n == "" || (n[|n| - 1] != '.' && !IsSpace(n[|n| - 1]))
  {
    var n := Normalize(host);
    if n != "" {
      NormalizedShape(host);
      hide IsSpace, TrimSpace, Normalize;
      if n[|n| - 1] != '.' && !IsSpace(n[|n| - 1]) { NormalizeKeeps(n); } else { NormalizeCuts(n); }
    } else {
      assert TrimSpace(n) == n;
    }
  }

  lemma {:induction false} NormalizedShape(host: string)
    ensures var n := Normalize(host);
            (n != "" ==> !IsSpace(n[0])) && forall i :: 0 <= i < |n| ==> ToLowerChar(n[i]) == n[i]
  {
    var i, j := TrimSpaceMeans(host);
    var t := TrimSpace(host);
    hide IsSpace, TrimSpace;
    forall i | 0 <= i < |t|
      ensures ToLowerChar(ToLower(t)[i]) == ToLower(t)[i] && (IsSpace(ToLower(t)[i]) <==> IsSpace(t[i])) {
      LowerTwice(t[i]);
    }
  }

  lemma {:induction false} NormalizeCuts(s: string)
    requires s != "" && (s[|s| - 1] == '.' || IsSpace(s[|s| - 1]))
    ensures Normalize(s) != s
  {
    var i, j := TrimSpaceMeans(s);
    assert |ToLower(TrimSpace(s))| == j - i;
    if j - i == |s| {
      assert TrimSpace(s)[|s| - 1] == '.';
      hide IsSpace, TrimSpace;
      assert ToLower(TrimSpace(s))[|s| - 1..] == ".";
    }
  }

  // ---- The round trip ----

  /** Building succeeds exactly when every entry is acceptable by itself. */
  lemma {:induction false} BuildsIffAllAccepted(entries: seq<string>)
    ensures Build(entries).Built? <==> forall i :: 0 <= i < |entries| ==> RefusalOf(Normalize(entries[i])).None?
  {
    hide RefusalOf, With, Normalize;
    if entries == [] {
    } else {
      BuildsIffAllAccepted(entries[..|entries| - 1]);
    }
  }

  /** Rebuilding from Patterns() of any accepted matcher succeeds and yields the same matcher, hence
      the same verdict on every host. */
  lemma {:induction false} RebuildIsIdentity(entries: seq<string>)
    requires Build(entries).Built?
    ensures Build(Build(entries).matcher.patterns) == Build(entries)
  {
    if entries == [] {
    } else {
      var n := |entries| - 1;
      RebuildIsIdentity(entries[..n]);
      var before := Build(entries[..n]).matcher;
      var pattern := Normalize(entries[n]);
      AcceptedIsNormal(pattern);
      hide RefusalOf, Normalize;
      var m := With(before, pattern);
      if m.patterns != before.patterns {
        assert HasPrefix(pattern, "*.") ==> "*." + pattern[2..] == pattern;
        assert m.patterns == before.patterns + [pattern];
        assert m.patterns[..|m.patterns| - 1] == before.patterns;
      }
    }
  }

  /** Patterns() lists the normalised entries, exact names once. */
  lemma {:induction false} PatternsMean(entries: seq<string>)
    requires Build(entries).Built?
    ensures var m := Build(entries).matcher;
            && (forall p :: p in m.patterns <==> exists i :: 0 <= i < |entries| && Normalize(entries[i]) == p)
            && (forall p :: p in m.exact ==> p in m.patterns)
            && forall i, j :: 0 <= i < j < |m.patterns| && m.patterns[i] == m.patterns[j] ==>
                 |m.patterns[i]| >= 2 && m.patterns[i][0] == '*' && m.patterns[i][1] == '.'
    ensures forall p :: p in Build(entries).matcher.patterns && !HasPrefix(p, "*.") ==>
              p in Build(entries).matcher.exact
  {
    hide RefusalOf, Normalize;
    if entries == [] {
    } else {
      var n := |entries| - 1;
      PatternsMean(entries[..n]);
      var before := Build(entries[..n]).matcher;
      var pattern := Normalize(entries[n]);
      var m := With(before, pattern);
      assert entries == entries[..n] + [entries[n]];
      WildcardMeans(pattern);
      assert m.patterns == before.patterns || m.patterns == before.patterns + [pattern];
      assert pattern in m.patterns;
    }
  }

  lemma {:induction false} RebuiltMatchesTheSameHosts(entries: seq<string>, host: string)
    requires Build(entries).Built?
    ensures Build(Build(entries).matcher.patterns).Built?
    ensures Match(Build(Build(entries).matcher.patterns).matcher, host) <==> Match(Build(entries).matcher, host)
  {
    RebuildIsIdentity(entries);
  }

  // ---- What a matcher matches ----

  /** The meaning of one pattern. */
  ghost predicate Covers(pattern: string, host: string) {
    if |pattern| >= 2 && pattern[0] == '*' && pattern[1] == '.' then exists x :: host == x + pattern[1..]
    else host == pattern
  }

  lemma {:induction false} CoversSuffix(pattern: string, host: string)
    ensures Covers(pattern, host) <==>
            if HasPrefix(pattern, "*.") then HasSuffix(host, pattern[1..]) else host == pattern
  {
    WildcardMeans(pattern);
    if HasPrefix(pattern, "*.") && HasSuffix(host, pattern[1..]) {
      assert host == host[..|host| - |pattern[1..]|] + pattern[1..];
    }
  }

  lemma {:induction false} WildcardMeans(pattern: string)
    ensures HasPrefix(pattern, "*.") <==> |pattern| >= 2 && pattern[0] == '*' && pattern[1] == '.'
    ensures HasPrefix(pattern, "*.") ==> pattern == "*." + pattern[2..]
  {
    if |pattern| >= 2 { assert pattern[..2] == [pattern[0], pattern[1]]; }
  }

  /** A host matches exactly when some entry of the list, normalised, covers it: order and
      repetitions in the list do not matter. */
  lemma {:induction false} MatchMeans(entries: seq<string>, host: string)
    requires Build(entries).Built?
    ensures Match(Build(entries).matcher, host) <==>
            exists i :: 0 <= i < |entries| && Covers(Normalize(entries[i]), Normalize(host))
  {
    hide RefusalOf, Normalize;
    if entries == [] {
    } else {
      var n := |entries| - 1;
      var before := Build(entries[..n]).matcher;
      MatchMeans(entries[..n], host);
      var pattern := Normalize(entries[n]);
      var m := With(before, pattern);
      var h := Normalize(host);
      CoversSuffix(pattern, h);
      assert m == Build(entries).matcher;
      assert Match(m, host) <==> Match(before, host) || Covers(pattern, h) by {
        if HasPrefix(pattern, "*.") {
          assert "." + pattern[2..] == pattern[1..];
          assert m.wildcards[|m.wildcards| - 1] == pattern[2..];
          assert forall k :: 0 <= k < |before.wildcards| ==> m.wildcards[k] == before.wildcards[k];
        }
      }
      assert forall i :: 0 <= i < n ==> entries[..n][i] == entries[i];
    }
  }

  // ---- Spellings of one host ----

  /** A host is the same host in capitals. */
  lemma {:induction false} CaseDoesNotMatter(m: HostMatcher, a: string, b: string)
    requires SameLetters(a, b)
    ensures Match(m, a) <==> Match(m, b)
  {
    hide TrimSpace;
    SameFolded(a, b);
    assert Normalize(a) == Normalize(b);
  }

  /** And with blanks around it, and with one final dot. */
  lemma {:induction false} BlanksAndDotDoNotMatter(m: HostMatcher, host: string, before: string, after: string)
    requires host != "" && !IsSpace(host[0]) && !IsSpace(host[|host| - 1]) && host[|host| - 1] != '.'
    requires forall k :: 0 <= k < |before| ==> IsSpace(before[k])
    requires forall k :: 0 <= k < |after| ==> IsSpace(after[k])
    ensures Match(m, before + host + after) <==> Match(m, host)
    ensures Match(m, before + host + "." + after) <==> Match(m, host)
  {
    assert !IsSpace('.');
    hide IsSpace, TrimSpace, ToLower, HasSuffix, Match, Normalize;
    assert "" + host + "" == host;
    assert before + (host + ".") + after == before + host + "." + after;
    PaddedTrims("", host, "");
    PaddedTrims(before, host, after);
    PaddedTrims(before, host + ".", after);
    NormalizedHost(host, host);
    NormalizedHost(before + host + after, host);
    NormalizedHost(before + host + "." + after, host);
    SameVerdict(m, before + host + after, host);
    SameVerdict(m, before + host + "." + after, host);
  }

  lemma {:induction false} NormalizedHost(s: string, host: string)
    requires host != "" && host[|host| - 1] != '.' && (TrimSpace(s) == host || TrimSpace(s) == host + ".")
    ensures Normalize(s) == ToLower(host)
  {
    hide TrimSpace, ToLower, HasSuffix;
    DotDropped(host);
  }

  lemma {:induction false} SameVerdict(m: HostMatcher, a: string, b: string)
    requires Normalize(a) == Normalize(b)
    ensures Match(m, a) <==> Match(m, b)
  {
    hide Normalize;
  }

  lemma {:induction false} PaddedTrims(before: string, core: string, after: string)
    requires core != "" && !IsSpace(core[0]) && !IsSpace(core[|core| - 1])
    requires forall k :: 0 <= k < |before| ==> IsSpace(before[k])
    requires forall k :: 0 <= k < |after| ==> IsSpace(after[k])
    ensures TrimSpace(before + core + after) == core
  {
    hide IsSpace, TrimSpace;
    TrimmedPart(before + core + after, |before|, |before| + |core|);
  }

  lemma {:induction false} DotDropped(host: string)
    requires host != "" && host[|host| - 1] != '.'
    ensures HasSuffix(ToLower(host + "."), ".") && ToLower(host + ".")[..|host|] == ToLower(host)
    ensures !HasSuffix(ToLower(host), ".")
  {
    NotLoweredToDot(host[|host| - 1]);
    assert ToLower(host + ".")[|host|] == '.';
    assert ToLower(host + ".")[|host|..] == ".";
    assert ToLower(host)[|host| - 1..] == [ToLowerChar(host[|host| - 1])];
  }

  lemma {:induction false} NotLoweredToDot(c: char)
    requires c != '.'
    ensures ToLowerChar(c) != '.'
  {
  }

  // ---- Which names are valid ----

  predicate Dotted(host: string, a: nat, b: nat, c: nat, d: nat) {
    host == Decimal(a) + "." + Decimal(b) + "." + Decimal(c) + "." + Decimal(d)
  }

  lemma {:induction false} DecimalOf(s: string)
    requires s != "" && AllDigits(s) && (|s| == 1 || s[0] != '0')
    ensures Decimal(DigitsValue(s)) == s && (s[0] != '0' ==> DigitsValue(s) > 0)
  {
    if |s| == 1 {
      assert s[..0] == "" && s == [s[0]];
    } else {
      var init := s[..|s| - 1];
      assert init[0] == s[0];
      DecimalOf(init);
      assert DigitsValue(s) / 10 == DigitsValue(init) && DigitsValue(s) % 10 == DigitValue(s[|s| - 1]);
      assert s == init + [s[|s| - 1]];
    }
  }

  lemma {:induction false} DecimalShape(n: nat)
    ensures (|Decimal(n)| == 1 || Decimal(n)[0] != '0') && (n > 0 ==> Decimal(n)[0] != '0')
  {
    if n < 10 {
    } else {
      DecimalShape(n / 10);
    }
  }

  lemma {:induction false} OctetMeans(s: string)
    ensures Octet(s) <==> exists n: nat :: n <= 255 && s == Decimal(n)
  {
    if Octet(s) { DecimalOf(s); }
    if n: nat :| n <= 255 && s == Decimal(n) {
      DecimalValue(n);
      DecimalShape(n);
    }
  }

  lemma {:induction false} OctetValue(s: string) returns (n: nat)
    requires Octet(s)
    ensures n <= 255 && s == Decimal(n)
  {
    OctetMeans(s);
    n :| n <= 255 && s == Decimal(n);
  }

  lemma {:induction false} OctetOf(n: nat)
    requires n <= 255
    ensures Octet(Decimal(n)) && '.' !in Decimal(n)
  {
    hide Octet, Decimal;
    OctetMeans(Decimal(n));
    NoDot(Decimal(n));
  }

  lemma {:induction false} NoDot(s: string)
    requires AllDigits(s)
    ensures '.' !in s
  {
  }

  lemma {:induction false} JoinFour(a: string, b: string, c: string, d: string)
    ensures Join([a, b, c, d], '.') == a + "." + b + "." + c + "." + d
  {
    assert [a, b, c, d][1..] == [b, c, d] && [b, c, d][1..] == [c, d] && [c, d][1..] == [d];
    assert Join([c, d], '.') == c + "." + d;
    assert Join([b, c, d], '.') == b + "." + (c + "." + d);
  }

  /** An address is four numbers up to 255 in decimal notation, with dots between them. */
  lemma {:induction false} IPv4Means(host: string)
    ensures IsIPv4(host) <==>
            exists a: nat, b: nat, c: nat, d: nat ::
              Dotted(host, a, b, c, d) && a <= 255 && b <= 255 && c <= 255 && d <= 255
  {
    hide Octet, Split, Decimal, Join, AllDigits;
    if IsIPv4(host) {
      var parts := Split(host, '.');
      SplitJoins(host, '.');
      assert parts == [parts[0], parts[1], parts[2], parts[3]];
      JoinFour(parts[0], parts[1], parts[2], parts[3]);
      var a := OctetValue(parts[0]);
      var b := OctetValue(parts[1]);
      var c := OctetValue(parts[2]);
      var d := OctetValue(parts[3]);
      assert Dotted(host, a, b, c, d);
    }
    if a: nat, b: nat, c: nat, d: nat :|
      Dotted(host, a, b, c, d) && a <= 255 && b <= 255 && c <= 255 && d <= 255 {
      var parts := [Decimal(a), Decimal(b), Decimal(c), Decimal(d)];
      OctetOf(a);
      OctetOf(b);
      OctetOf(c);
      OctetOf(d);
      JoinFour(Decimal(a), Decimal(b), Decimal(c), Decimal(d));
      JoinSplits(parts, '.');
    }
  }

  predicate LabelsOk(s: string) {
    var labels := Split(s, '.'); forall k :: 0 <= k < |labels| ==> Label(labels[k])
  }

  /** A dot among 64 characters from i on. */
  predicate DotNear(s: string, i: int) {
    exists k :: 0 <= k < |s| && i <= k < i + 64 && s[k] == '.'
  }

  /** What the labels come to on the whole name: lower-case letters, digits, hyphens and dots; letters or
      digits at both ends and on both sides of every dot; and no 64 characters in a row without a dot. */
  ghost predicate NameOk(s: string) { s != "" && CharsOk(s) && EdgesOk(s) && NeverLong(s) }

  predicate CharsOk(s: string) {
    forall i :: 0 <= i < |s| ==> s[i] in "abcdefghijklmnopqrstuvwxyz0123456789-."
  }

  ghost predicate EdgesOk(s: string)
    requires s != ""
  {
    Solid(s[0]) && Solid(s[|s| - 1]) && forall i {:trigger DotOk(s, i)} :: 0 < i < |s| - 1 ==> DotOk(s, i)
  }

  predicate DotOk(s: string, i: int)
    requires 0 < i < |s| - 1
  {
    s[i] == '.' ==> Solid(s[i - 1]) && Solid(s[i + 1])
  }

  ghost predicate NeverLong(s: string) { forall i {:trigger DotNear(s, i)} :: 0 <= i <= |s| - 64 ==> DotNear(s, i) }

  /** A letter or a digit. */
  predicate Solid(c: char) { c in "abcdefghijklmnopqrstuvwxyz0123456789" }

  lemma {:induction false} SolidMeans(c: char)
    ensures Solid(c) <==> 'a' <= c <= 'z' || '0' <= c <= '9'
    ensures c in "abcdefghijklmnopqrstuvwxyz0123456789-." <==> Solid(c) || c == '-' || c == '.'
  {
  }

  lemma {:induction false} OneLabel(s: string)
    requires '.' !in s
    ensures Label(s) <==> NameOk(s)
  {
    forall i | 0 <= i < |s|
      ensures HostChar(s[i]) <==> s[i] in "abcdefghijklmnopqrstuvwxyz0123456789-."
      ensures HostChar(s[i]) && s[i] != '-' ==> Solid(s[i])
      ensures Solid(s[i]) ==> s[i] != '-'
    {
      SolidMeans(s[i]);
    }
    hide HostChar, Solid;
    assert |s| >= 64 ==> !DotNear(s, 0);
  }

  lemma {:induction false} LabelAndRest(left: string, right: string)
    requires '.' !in left
    ensures NameOk(left + "." + right) <==> NameOk(left) && NameOk(right)
  {
    var s := left + "." + right;
    if left != "" && right != "" {
      CharsSplit(left, right);
      EdgesSplit(left, right);
      WindowsSplit(left, right);
      hide CharsOk, EdgesOk, NeverLong;
    } else {
      assert left == "" ==> s[0] == '.';
      assert right == "" ==> s[|s| - 1] == '.';
      SolidMeans('.');
    }
  }

  lemma {:induction false} CharsSplit(left: string, right: string)
    ensures CharsOk(left + "." + right) <==> CharsOk(left) && CharsOk(right)
  {
    var s, n := left + "." + right, |left| + 1;
    hide CharsOk;
    CharsAt(left, right);
    if CharsOk(s) { CharsOfPart(s, left, 0); CharsOfPart(s, right, n); }
  }

  lemma {:induction false} CharsAt(left: string, right: string)
    ensures CharsOk(left) && CharsOk(right) ==> CharsOk(left + "." + right)
  {
  }

  lemma {:induction false} CharsOfPart(s: string, part: string, n: nat)
    requires n + |part| <= |s| && s[n..n + |part|] == part && CharsOk(s)
    ensures CharsOk(part)
  {
    forall i | 0 <= i < |part| ensures part[i] == s[n + i] { }
  }

  lemma {:induction false} EdgesSplit(left: string, right: string)
    requires '.' !in left && left != "" && right != ""
    ensures EdgesOk(left + "." + right) <==> EdgesOk(left) && EdgesOk(right)
  {
    SolidMeans('.');
    hide Solid;
    var s, n := left + "." + right, |left| + 1;
    assert forall i :: 0 <= i < |left| ==> s[i] == left[i];
    assert forall i :: n <= i < |s| ==> s[i] == right[i - n];
    assert s[n - 1] == '.' && s[|s| - 1] == right[|right| - 1];
    if EdgesOk(s) {
      assert DotOk(s, n - 1);
      forall i {:trigger DotOk(right, i)} | 0 < i < |right| - 1 ensures DotOk(right, i) { assert DotOk(s, n + i); }
    }
    if EdgesOk(left) && EdgesOk(right) {
      forall i {:trigger DotOk(s, i)} | 0 < i < |s| - 1 ensures DotOk(s, i) {
        if i > n { assert DotOk(right, i - n); }
      }
    }
  }

  lemma {:induction false} WindowsSplit(left: string, right: string)
    requires '.' !in left
    ensures NeverLong(left + "." + right) <==> NeverLong(left) && NeverLong(right)
  {
    var s := left + "." + right;
    if NeverLong(s) {
      forall i {:trigger DotNear(left, i)} | 0 <= i <= |left| - 64 ensures DotNear(left, i) {
        WindowLeft(left, right, i);
      }
      forall i {:trigger DotNear(right, i)} | 0 <= i <= |right| - 64 ensures DotNear(right, i) {
        WindowRight(left, right, |left| + 1 + i);
      }
    }
    if NeverLong(left) && NeverLong(right) {
      forall i {:trigger DotNear(s, i)} | 0 <= i <= |s| - 64 ensures DotNear(s, i) {
        if i <= |left| < i + 64 {
          assert s[|left|] == '.';
        } else if i > |left| {
          WindowRight(left, right, i);
        } else {
          WindowLeft(left, right, i);
        }
      }
    }
  }

  lemma {:induction false} WindowLeft(left: string, right: string, i: int)
    requires 0 <= i <= |left| - 64
    ensures DotNear(left + "." + right, i) <==> DotNear(left, i)
  {
    var s := left + "." + right;
    assert forall k :: 0 <= k < |left| ==> s[k] == left[k];
  }

  lemma {:induction false} WindowRight(left: string, right: string, i: int)
    requires |left| < i
    ensures DotNear(left + "." + right, i) <==> DotNear(right, i - |left| - 1)
  {
    var s, n := left + "." + right, |left| + 1;
    assert forall k :: n <= k < |s| ==> s[k] == right[k - n];
    assert forall k :: 0 <= k < |right| ==> right[k] == s[n + k];
  }

  lemma {:induction false} LabelsMean(s: string)
    ensures LabelsOk(s) <==> NameOk(s)
    decreases |s|
  {
    hide Label, NameOk;
    var parts := Split(s, '.');
    SplitJoins(s, '.');
    if |parts| == 1 {
      OneLabel(s);
    } else {
      var left, right := parts[0], Join(parts[1..], '.');
      assert s == left + "." + right;
      JoinSplits(parts[1..], '.');
      LabelsMean(right);
      LabelAndRest(left, right);
      OneLabel(left);
      assert forall k :: 0 < k < |parts| ==> parts[k] == parts[1..][k - 1];
    }
  }

  /** A valid host is an address, or a name of at most 253 such characters other than localhost. */
  lemma {:induction false} ValidHostMeans(host: string)
    ensures ValidHostname(host) <==> IsIPv4(host) || (NameOk(host) && |host| <= 253 && host != "localhost")
  {
    hide Split, Label, NameOk, IsIPv4;
    LabelsMean(host);
    assert NameOk(host) ==> host != "" by { NamedIsNotEmpty(host); }
  }

  lemma {:induction false} NamedIsNotEmpty(host: string)
    ensures NameOk(host) ==> host != ""
  {
  }

  lemma {:induction false} WildcardAccepted(pattern: string)
    requires HasPrefix(pattern, "*.")
    ensures RefusalOf(pattern).None? <==> ValidHostname(pattern[2..]) && !IsIPv4(pattern[2..])
  {
    hide ValidHostname, IsIPv4;
    WildcardMeans(pattern);
    if ValidHostname(pattern[2..]) {
      ValidNameShape(pattern[2..]);
      forall i | 0 <= i < |pattern| ensures pattern[i] !in "/:@?#" {
        assert i >= 2 ==> pattern[i] == pattern[2..][i - 2];
      }
    }
  }

  lemma {:induction false} NameAccepted(pattern: string)
    requires !HasPrefix(pattern, "*.")
    ensures RefusalOf(pattern).None? <==> ValidHostname(pattern)
  {
    hide ValidHostname, IsIPv4;
    if ValidHostname(pattern) { ValidNameShape(pattern); }
  }

  /** An entry is accepted if, after its "*." or without one, it is such a host; no wildcard stands before
      an address. */
  lemma {:induction false} AcceptedMeans(pattern: string)
    ensures RefusalOf(pattern).None? <==>
            if |pattern| >= 2 && pattern[0] == '*' && pattern[1] == '.'
            then NameOk(pattern[2..]) && |pattern| <= 255 && pattern != "*.localhost" && !IsIPv4(pattern[2..])
            else IsIPv4(pattern) || (NameOk(pattern) && |pattern| <= 253 && pattern != "localhost")
  {
    WildcardMeans(pattern);
    hide RefusalOf, ValidHostname, NameOk, IsIPv4;
    if HasPrefix(pattern, "*.") {
      WildcardAccepted(pattern);
      ValidHostMeans(pattern[2..]);
    } else {
      NameAccepted(pattern);
      ValidHostMeans(pattern);
    }
  }

  /** Which of the refused entries are reported as empty, and which as no bare host. */
  lemma {:induction false} RefusedMeans(pattern: string)
    ensures RefusalOf(pattern) == Some(EmptyEntry) <==> pattern == ""
    ensures RefusalOf(pattern) == Some(NotABareHost) <==>
            exists i :: 0 <= i < |pattern| && pattern[i] in {'/', ':', '@', '?', '#'}
  {
    hide ValidHostname, IsIPv4;
    assert forall c :: c in "/:@?#" <==> c in {'/', ':', '@', '?', '#'} by { OneOfFive(); }
  }

  lemma {:induction false} OneOfFive()
    ensures forall c :: c in "/:@?#" <==> c in {'/', ':', '@', '?', '#'}
  {
    assert "/:@?#"[0] == '/' && "/:@?#"[1] == ':' && "/:@?#"[2] == '@' && "/:@?#"[3] == '?' && "/:@?#"[4] == '#';
  }
}
