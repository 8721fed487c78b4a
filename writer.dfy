/**
 * Routing a record to its shard and the single write attempt of
 * `insertAppsInstalled`. The memcache client and protobuf serialisation are not
 * modelled: their outcomes come in as a Reply.
 */
module Writer {
  import opened Wrappers
  import opened Parser

  /** The closed set of device types that have a memcache shard. */
  datatype DeviceType = Idfa | Gaid | Adid | Dvid

  /** The tag of a device type as it appears in the input and in the shard table. */
  function Tag(d: DeviceType): string {
    match d
    case Idfa => "idfa"
    case Gaid => "gaid"
    case Adid => "adid"
    case Dvid => "dvid"
  }

  /** The shard table `deviceMemc`, built once and only read. */
  const ShardTable: map<string, DeviceType> :=
    map["idfa" := Idfa, "gaid" := Gaid, "adid" := Adid, "dvid" := Dvid]

  /** The lookup `deviceMemc[devType]`: the shard of a known tag, None for any other. */
  function Route(devType: string): (r: Option<DeviceType>)
    ensures r.Some? <==> devType in {"idfa", "gaid", "adid", "dvid"}
  {
    if devType in ShardTable then Some(ShardTable[devType]) else None
  }

  /** Routing and tagging are inverse: a tag routes to its device type and nothing else does. */
  lemma RouteTag(devType: string, d: DeviceType)
    ensures Route(devType) == Some(d) <==> devType == Tag(d)
  {
    if devType == Tag(d) {
      assert devType in ShardTable;
    }
  }

  /** The memcache key `devType:devId`. */
  function Key(rec: AppsInstalled): string {
    rec.devType + ":" + rec.devId
  }

  /**
   * Keys are unambiguous when the type has no ':' (every routed type): the same
   * key comes from the same device type and id.
   */
  lemma KeyInjective(a: AppsInstalled, b: AppsInstalled)
    requires ':' !in a.devType && ':' !in b.devType
    requires Key(a) == Key(b)
    ensures a.devType == b.devType && a.devId == b.devId
  {
    var k := Key(a);
    var m, n := |a.devType|, |b.devType|;
    assert k[m] == ':' && k[n] == ':';
    assert m == n;
    assert a.devType == k[..m] == b.devType;
    assert a.devId == k[m + 1..] == b.devId;
  }

  /** Two records that both reach a shard and share a key are the same device. */
  lemma RoutedKeyInjective(a: AppsInstalled, b: AppsInstalled)
    requires Route(a.devType).Some? && Route(b.devType).Some?
    requires Key(a) == Key(b)
    ensures a.devType == b.devType && a.devId == b.devId
  {
    Untagged(a.devType);
    Untagged(b.devType);
    KeyInjective(a, b);
  }

  /** No shard tag holds a ':'. */
  lemma Untagged(devType: string)
    requires devType in ShardTable
    ensures ':' !in devType
  {
    assert ':' !in "idfa" && ':' !in "gaid" && ':' !in "adid" && ':' !in "dvid";
  }

  /** What the serialiser and the store would answer for one write. */
  datatype Reply = Reply(marshalOk: bool, setOk: bool)

  /** The outcome of one `insertAppsInstalled` call. */
  datatype WriteOutcome =
    | Stored(key: string)
    | DryRun(key: string)
    | SerializationError
    | BackendWriteError(key: string)
  {
    /** The boolean the write task sends on `resultChan`. */
    predicate Succeeded() {
      Stored? || DryRun?
    }
  }

  /**
   * `insertAppsInstalled`: serialise, then in dry mode only log (success without
   * contacting the store), otherwise one `Set` of the key, not retried.
   */
  function Insert(rec: AppsInstalled, dry: bool, reply: Reply): (w: WriteOutcome)
    ensures w.Succeeded() <==> reply.marshalOk && (dry || reply.setOk)
    ensures w.Stored? || w.BackendWriteError? <==> reply.marshalOk && !dry
    ensures w.DryRun? <==> reply.marshalOk && dry
    ensures !reply.marshalOk ==> w == SerializationError
    ensures w.Stored? || w.DryRun? || w.BackendWriteError? ==> w.key == Key(rec)
  {
    var key := Key(rec);
    if !reply.marshalOk then SerializationError
    else if dry then DryRun(key)
    else if reply.setOk then Stored(key)
    else BackendWriteError(key)
  }
}
