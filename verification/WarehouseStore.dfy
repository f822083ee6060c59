/** Package receipt at the foreign warehouse. */
module WarehouseStore {
  import opened Domain
  import opened Text

  datatype Package = Package(orderId: Id, tracking: string, warehouse: string,
                             weight: real, length: real, width: real, height: real)

  datatype WarehouseDb = WarehouseDb(packages: map<Id, Package>, outbox: seq<Envelope>)

  datatype Outcome = Applied | AlreadyExists | StorageFailure

  predicate ValidMeasurement(value: real, maximum: real) { 0.0 < value <= maximum }

  /** The input checks of ReceivePackage, on its normalised strings. */
  predicate ValidPackage(p: Package) {
    && p.tracking != "" && TrimSpace(p.tracking) == p.tracking
    && p.warehouse != "" && TrimSpace(p.warehouse) == p.warehouse
    && ValidMeasurement(p.weight, 500.0) && ValidMeasurement(p.length, 500.0)
    && ValidMeasurement(p.width, 500.0) && ValidMeasurement(p.height, 500.0)
  }

  predicate TrackingTaken(packages: map<Id, Package>, tracking: string) {
    exists q :: q in packages && packages[q].tracking == tracking
  }

  function ReceivedRow(id: Id, p: Package, eventId: Id, now: int): Envelope {
    Envelope(eventId, PackageReceivedV1, p.orderId, WarehouseService, now,
             PackageData(id, p.orderId, p.tracking, p.warehouse, p.weight, p.length, p.width, p.height))
  }

  function StorePackage(db: WarehouseDb, id: Id, p: Package, row: Envelope): (WarehouseDb, Outcome) {
    if id in db.packages || TrackingTaken(db.packages, p.tracking) then (db, AlreadyExists)
    else if HasId(db.outbox, row.eventId) then (db, StorageFailure)
    else (WarehouseDb(db.packages[id := p], db.outbox + [row]), Applied)
  }

  class WarehouseRepository {
    var packages: map<Id, Package>
    var outbox: seq<Envelope>

    constructor ()
      ensures Db() == WarehouseDb(map[], [])
    {
      packages, outbox := map[], [];
    }

    function Db(): WarehouseDb
      reads this
    {
      WarehouseDb(packages, outbox)
    }

    /** CreateWithOutbox: package and event are stored together or not at all. */
    method CreateWithOutbox(id: Id, p: Package, row: Envelope, fault: Fault) returns (r: Outcome)
      modifies this
      ensures fault == NoFault ==> (Db(), r) == StorePackage(old(Db()), id, p, row)
      ensures fault == LostReply ==> Db() == StorePackage(old(Db()), id, p, row).0 && !r.Applied?
      ensures fault.AtStatement? ==> Db() == old(Db()) && !r.Applied?
      ensures fault == NoFault ==>
                (r.AlreadyExists? <==> id in old(packages)
                                       || exists q :: q in old(packages) && old(packages)[q].tracking == p.tracking)
      ensures r.Applied? ==> packages == old(packages)[id := p] && outbox == old(outbox) + [row]
      ensures !r.Applied? && fault != LostReply ==> Db() == old(Db())
    {
      var before := packages;
      if fault == AtStatement(0) { return StorageFailure; }
      if id in packages || TrackingTaken(packages, p.tracking) { return AlreadyExists; }
      packages := packages[id := p];
      if fault == AtStatement(1) || HasId(outbox, row.eventId) {
        packages := before;
        return StorageFailure;
      }
      var rows := outbox;
      outbox := outbox + [row];
      if fault.AtStatement? {
        packages, outbox := before, rows;
        return StorageFailure;
      }
      if fault == LostReply { return StorageFailure; }
      return Applied;
    }
  }
}
