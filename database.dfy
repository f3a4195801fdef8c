/** The Supabase database service's own logic: the row sets each save
    inserts into `ip_addresses`, `notifications` and `dns_records`, the
    insert-or-fetch loop over the `tags` table, the error checks of
    `domainExists` and `saveDomain`, and the reshaping of rows read back
    (`mapDbDomainToDomain`, `listDomainNames`). The database's answers
    (rows returned, error codes) are parameters. */
module Database {
  import opened Wrappers
  import opened Text
  import opened TagStore

  /** What a failed call throws: a database error with its code, an
      `Error` raised by the service with its message, or the failure of one
      tag of a save. */
  datatype Failure = DbFailure(code: string) | Message(text: string) | TagFailed(tag: TagFailure)

  /** A call that returns a value or throws. */
  datatype Outcome<+T> = Done(value: T) | Throws(failure: Failure)

  /** A database error as the client reports it. */
  datatype DbError = DbError(code: string)

  /** PostgREST's code when `.single()` does not find exactly one row. */
  const NoSingleRow: string := "PGRST116"

  /** A failing insert throws its error; an insert that is not made cannot fail. */
  function InsertFailure<R>(insert: Option<seq<R>>, error: Option<DbError>): (f: Option<Failure>)
    ensures f.Some? <==> insert.Some? && error.Some?
    ensures f.Some? ==> f.value == DbFailure(error.value.code)
  {
    if insert.Some? && error.Some? then Some(DbFailure(error.value.code)) else None
  }

  // ---------------------------------------------------------------------
  // Domains
  // ---------------------------------------------------------------------

  /** A row of the `domains` table; dates are kept as the stored text. */
  datatype DbDomain = DbDomain(id: string, userId: string, domainName: string, registrar: string,
                               expiryDate: string, notes: string, createdAt: string, updatedAt: string)

  /** The `Domain` the service hands back. */
  datatype Domain = Domain(id: string, userId: string, domainName: string, registrar: string,
                           expiryDate: string, notes: string, createdAt: string, updatedAt: string)

  /** `mapDbDomainToDomain`. */
  function MapDbDomainToDomain(row: DbDomain): (d: Domain)
    ensures d.id == row.id && d.userId == row.userId && d.domainName == row.domainName
    ensures d.registrar == row.registrar && d.notes == row.notes
  {
    Domain(row.id, row.userId, row.domainName, row.registrar, row.expiryDate, row.notes, row.createdAt, row.updatedAt)
  }

  /** The row a domain comes from: the inverse renaming. */
  function DomainToDbDomain(d: Domain): DbDomain
  {
    DbDomain(d.id, d.userId, d.domainName, d.registrar, d.expiryDate, d.notes, d.createdAt, d.updatedAt)
  }

  /** The mapping loses nothing: it round-trips both ways, so two different
      rows never become the same domain. */
  lemma MapDomainRoundTrip(row: DbDomain, d: Domain, other: DbDomain)
    ensures DomainToDbDomain(MapDbDomainToDomain(row)) == row
    ensures MapDbDomainToDomain(DomainToDbDomain(d)) == d
    ensures MapDbDomainToDomain(row) == MapDbDomainToDomain(other) ==> row == other
  {
    if MapDbDomainToDomain(row) == MapDbDomainToDomain(other) {
      assert DomainToDbDomain(MapDbDomainToDomain(row)) == DomainToDbDomain(MapDbDomainToDomain(other));
    }
  }

  /** The rows of `domains` for this user and name, in table order. */
  function Matching(rows: seq<DbDomain>, userId: string, domainName: string): (r: seq<DbDomain>)
    ensures |r| <= |rows|
  {
    if rows == [] then []
    else
      var rest := Matching(rows[..|rows| - 1], userId, domainName);
      var last := rows[|rows| - 1];
      if last.userId == userId && last.domainName == domainName then rest + [last] else rest
  }

  /** `.single()`: the row when there is exactly one, otherwise no data and
      the `PGRST116` error. */
  datatype Single<T> = Single(data: Option<T>, error: Option<DbError>)

  function SingleRow<T>(rows: seq<T>): Single<T>
  {
    if |rows| == 1 then Single(Some(rows[0]), None) else Single(None, Some(DbError(NoSingleRow)))
  }

  /** `domainExists` given the query's data and error. */
  function DomainExists<T>(data: Option<T>, error: Option<DbError>): (r: Outcome<bool>)
    ensures r.Throws? <==> error.Some? && error.value.code != NoSingleRow
    ensures r.Throws? ==> r.failure == DbFailure(error.value.code)
    ensures r.Done? ==> (r.value <==> data.Some?)
  {
    if error.Some? && error.value.code != NoSingleRow then Throws(DbFailure(error.value.code))
    else Done(data.Some?)
  }

  /** `domainExists` over a `domains` table: a transport error is thrown;
      otherwise the answer is whether `.single()` found a row. */
  function DomainExistsIn(rows: seq<DbDomain>, userId: string, domainName: string,
                          transport: Option<DbError>): Outcome<bool>
  {
    if transport.Some? then DomainExists<DbDomain>(None, transport)
    else
      var q := SingleRow(Matching(rows, userId, domainName));
      DomainExists(q.data, q.error)
  }

  /** Against the table the answer is true exactly when ONE row has the
      user and name: no row and two rows both give false (`.single()`
      reports both as `PGRST116`). Any other error throws. */
  lemma DomainExistsCountsRows(rows: seq<DbDomain>, userId: string, domainName: string,
                               transport: Option<DbError>)
    ensures transport.None? ==> DomainExistsIn(rows, userId, domainName, transport)
                                == Done(|Matching(rows, userId, domainName)| == 1)
    ensures transport.Some? && transport.value.code != NoSingleRow ==>
              DomainExistsIn(rows, userId, domainName, transport) == Throws(DbFailure(transport.value.code))
    ensures transport.Some? && transport.value.code == NoSingleRow ==>
              DomainExistsIn(rows, userId, domainName, transport) == Done(false)
  {
  }

  /** A row is matched exactly when it has the user and the name. */
  lemma {:induction false} MatchingMembers(rows: seq<DbDomain>, userId: string, domainName: string, row: DbDomain)
    ensures row in Matching(rows, userId, domainName) <==> row in rows && row.userId == userId && row.domainName == domainName
  {
    if rows != [] {
      var init := rows[..|rows| - 1];
      MatchingMembers(init, userId, domainName, row);
      assert rows == init + [rows[|rows| - 1]];
    }
  }

  /** The domain fields a save starts from. */
  datatype DomainInput = DomainInput(domainName: string, registrar: string, expiryDate: string, notes: string)

  /** The row `saveDomain` inserts: the input's fields and the current
      user's id (absent when nobody is signed in). */
  datatype DomainPayload = DomainPayload(domainName: string, registrar: string, expiryDate: string,
                                         notes: string, userId: Option<string>)

  function DomainPayloadOf(domain: DomainInput, user: Option<string>): (p: DomainPayload)
    ensures p.domainName == domain.domainName && p.registrar == domain.registrar
    ensures p.expiryDate == domain.expiryDate && p.notes == domain.notes && p.userId == user
  {
    DomainPayload(domain.domainName, domain.registrar, domain.expiryDate, domain.notes, user)
  }

  const MsgDomainNotInserted: string := "Failed to insert domain"

  /** The checks after the domain insert: its error is thrown; no row back
      throws an error of the service's own; otherwise the row. */
  function CheckInsertedDomain(inserted: Option<DbDomain>, error: Option<DbError>): (r: Outcome<DbDomain>)
    ensures error.Some? ==> r == Throws(DbFailure(error.value.code))
    ensures error.None? && inserted.None? ==> r == Throws(Message(MsgDomainNotInserted))
    ensures r.Done? <==> error.None? && inserted.Some?
    ensures r.Done? ==> r.value == inserted.value
  {
    if error.Some? then Throws(DbFailure(error.value.code))
    else if inserted.None? then Throws(Message(MsgDomainNotInserted))
    else Done(inserted.value)
  }

  // ---------------------------------------------------------------------
  // IP addresses and notifications
  // ---------------------------------------------------------------------

  datatype IpInput = IpInput(ipAddress: string, isIpv6: bool)
  datatype IpRow = IpRow(domainId: string, ipAddress: string, isIpv6: bool)

  /** The insert `saveIpAddresses` makes, `None` when it returns early. */
  function IpRows(domainId: string, ips: seq<IpInput>): (insert: Option<seq<IpRow>>)
    ensures insert.None? <==> ips == []
    ensures insert.Some? ==> |insert.value| == |ips|
    ensures insert.Some? ==> forall i :: 0 <= i < |ips| ==> insert.value[i].domainId == domainId
  {
    if ips == [] then None
    else Some(seq(|ips|, i requires 0 <= i < |ips| => IpRow(domainId, ips[i].ipAddress, ips[i].isIpv6)))
  }

  /** The addresses a set of rows stores. */
  function IpInputsOf(rows: seq<IpRow>): (ips: seq<IpInput>)
    ensures |ips| == |rows|
  {
    seq(|rows|, i requires 0 <= i < |rows| => IpInput(rows[i].ipAddress, rows[i].isIpv6))
  }

  /** The rows store exactly the addresses given, in order, each with its
      `is_ipv6` flag. */
  lemma IpRowsRoundTrip(domainId: string, ips: seq<IpInput>)
    requires ips != []
    ensures IpRows(domainId, ips).Some? && IpInputsOf(IpRows(domainId, ips).value) == ips
  {
  }

  datatype NotificationInput = NotificationInput(notificationType: string, isEnabled: bool)
  datatype NotificationRow = NotificationRow(domainId: string, notificationType: string, isEnabled: bool)

  /** The insert `saveNotifications` makes, `None` when it returns early. */
  function NotificationRows(domainId: string, ns: seq<NotificationInput>): (insert: Option<seq<NotificationRow>>)
    ensures insert.None? <==> ns == []
    ensures insert.Some? ==> |insert.value| == |ns|
    ensures insert.Some? ==> forall i :: 0 <= i < |ns| ==> insert.value[i].domainId == domainId
  {
    if ns == [] then None
    else Some(seq(|ns|, i requires 0 <= i < |ns| => NotificationRow(domainId, ns[i].notificationType, ns[i].isEnabled)))
  }

  function NotificationInputsOf(rows: seq<NotificationRow>): (ns: seq<NotificationInput>)
    ensures |ns| == |rows|
  {
    seq(|rows|, i requires 0 <= i < |rows| => NotificationInput(rows[i].notificationType, rows[i].isEnabled))
  }

  /** The rows store exactly the notifications given, in order, with type
      and enabled flag copied. */
  lemma NotificationRowsRoundTrip(domainId: string, ns: seq<NotificationInput>)
    requires ns != []
    ensures NotificationRows(domainId, ns).Some? && NotificationInputsOf(NotificationRows(domainId, ns).value) == ns
  {
  }

  // ---------------------------------------------------------------------
  // DNS records
  // ---------------------------------------------------------------------

  /** The DNS part of a save; each list may be absent. */
  datatype DnsInput = DnsInput(mxRecords: Option<seq<string>>, txtRecords: Option<seq<string>>,
                               nameServers: Option<seq<string>>)

  datatype DnsRow = DnsRow(domainId: string, recordType: string, recordValue: string)

  /** One row of type `t` per value, in order. */
  function TypedRows(domainId: string, t: string, values: seq<string>): (rows: seq<DnsRow>)
    ensures |rows| == |values|
    ensures forall i :: 0 <= i < |values| ==> rows[i] == DnsRow(domainId, t, values[i])
  {
    seq(|values|, i requires 0 <= i < |values| => DnsRow(domainId, t, values[i]))
  }

  /** The rows of a DNS save: every MX record, then every TXT record, then
      every name server. */
  function DnsRows(domainId: string, dns: DnsInput): seq<DnsRow>
  {
    TypedRows(domainId, "MX", dns.mxRecords.GetOr([]))
    + TypedRows(domainId, "TXT", dns.txtRecords.GetOr([]))
    + TypedRows(domainId, "NS", dns.nameServers.GetOr([]))
  }

  /** `saveDnsRecords`: nothing without DNS data; otherwise the three lists
      pushed in turn (the insert is made even when all are empty). */
  method SaveDnsRecords(domainId: string, dns: Option<DnsInput>) returns (insert: Option<seq<DnsRow>>)
    ensures insert.None? <==> dns.None?
    ensures dns.Some? ==> insert == Some(DnsRows(domainId, dns.value))
  {
    if dns.None? {
      return None;
    }
    var records: seq<DnsRow> := [];
    var mx := dns.value.mxRecords.GetOr([]);
    for i := 0 to |mx|
      invariant records == TypedRows(domainId, "MX", mx[..i])
    {
      records := records + [DnsRow(domainId, "MX", mx[i])];
    }
    assert mx[..|mx|] == mx;
    ghost var mxRows := records;
    var txt := dns.value.txtRecords.GetOr([]);
    for i := 0 to |txt|
      invariant records == mxRows + TypedRows(domainId, "TXT", txt[..i])
    {
      records := records + [DnsRow(domainId, "TXT", txt[i])];
    }
    assert txt[..|txt|] == txt;
    ghost var mxTxtRows := records;
    var ns := dns.value.nameServers.GetOr([]);
    for i := 0 to |ns|
      invariant records == mxTxtRows + TypedRows(domainId, "NS", ns[..i])
    {
      records := records + [DnsRow(domainId, "NS", ns[i])];
    }
    assert ns[..|ns|] == ns;
    insert := Some(records);
  }

  /** The values of the rows of type `t`, in row order. */
  function ValuesOfType(rows: seq<DnsRow>, t: string): (values: seq<string>)
    ensures |values| <= |rows|
  {
    if rows == [] then []
    else (if rows[0].recordType == t then [rows[0].recordValue] else []) + ValuesOfType(rows[1..], t)
  }

  lemma {:induction false} ValuesOfTypeAppend(xs: seq<DnsRow>, ys: seq<DnsRow>, t: string)
    ensures ValuesOfType(xs + ys, t) == ValuesOfType(xs, t) + ValuesOfType(ys, t)
  {
    if xs == [] {
      assert xs + ys == ys;
    } else {
      ValuesOfTypeAppend(xs[1..], ys, t);
      assert (xs + ys)[1..] == xs[1..] + ys;
      assert (xs + ys)[0] == xs[0];
      var w := if xs[0].recordType == t then [xs[0].recordValue] else [];
      assert ValuesOfType(xs + ys, t) == w + ValuesOfType(xs[1..] + ys, t);
      assert w + (ValuesOfType(xs[1..], t) + ValuesOfType(ys, t)) == (w + ValuesOfType(xs[1..], t)) + ValuesOfType(ys, t);
    }
  }

  /** Rows of one type give back their values for that type and nothing
      for any other. */
  lemma {:induction false} ValuesOfTypedRows(domainId: string, u: string, values: seq<string>, t: string)
    ensures ValuesOfType(TypedRows(domainId, u, values), t) == if u == t then values else []
  {
    if values != [] {
      ValuesOfTypedRows(domainId, u, values[1..], t);
      assert TypedRows(domainId, u, values)[1..] == TypedRows(domainId, u, values[1..]);
    }
  }

  /** The position of a record type in a DNS save. */
  function TypeRank(t: string): nat
  {
    if t == "MX" then 0 else if t == "TXT" then 1 else 2
  }

  /** The values of type `t` in three runs of typed rows. */
  lemma ValuesOfThree(domainId: string, mx: seq<string>, txt: seq<string>, ns: seq<string>, t: string)
    ensures ValuesOfType(TypedRows(domainId, "MX", mx) + TypedRows(domainId, "TXT", txt) + TypedRows(domainId, "NS", ns), t)
         == ValuesOfType(TypedRows(domainId, "MX", mx), t) + ValuesOfType(TypedRows(domainId, "TXT", txt), t)
            + ValuesOfType(TypedRows(domainId, "NS", ns), t)
  {
    var a := TypedRows(domainId, "MX", mx);
    var b := TypedRows(domainId, "TXT", txt);
    ValuesOfTypeAppend(a + b, TypedRows(domainId, "NS", ns), t);
    ValuesOfTypeAppend(a, b, t);
  }

  lemma DistinctTypes()
    ensures "MX" != "TXT" && "MX" != "NS" && "TXT" != "NS"
  {
    assert "MX"[0] == 'M' && "TXT"[0] == 'T' && "NS"[0] == 'N';
  }

  /** The rows of type `t` of a DNS save are those of the list of that type. */
  lemma ValuesOfDnsRows(domainId: string, dns: DnsInput, t: string)
    ensures ValuesOfType(DnsRows(domainId, dns), t)
         == (if t == "MX" then dns.mxRecords.GetOr([]) else [])
            + (if t == "TXT" then dns.txtRecords.GetOr([]) else [])
            + (if t == "NS" then dns.nameServers.GetOr([]) else [])
  {
    var mx, txt, ns := dns.mxRecords.GetOr([]), dns.txtRecords.GetOr([]), dns.nameServers.GetOr([]);
    ValuesOfThree(domainId, mx, txt, ns, t);
    ValuesOfTypedRows(domainId, "MX", mx, t);
    ValuesOfTypedRows(domainId, "TXT", txt, t);
    ValuesOfTypedRows(domainId, "NS", ns, t);
  }

  /** A DNS save loses nothing and mixes nothing: each list is recovered,
      in order, from the rows of its type. */
  lemma DnsRowsRecover(domainId: string, dns: DnsInput)
    ensures ValuesOfType(DnsRows(domainId, dns), "MX") == dns.mxRecords.GetOr([])
    ensures ValuesOfType(DnsRows(domainId, dns), "TXT") == dns.txtRecords.GetOr([])
    ensures ValuesOfType(DnsRows(domainId, dns), "NS") == dns.nameServers.GetOr([])
  {
    var mx, txt, ns := dns.mxRecords.GetOr([]), dns.txtRecords.GetOr([]), dns.nameServers.GetOr([]);
    DistinctTypes();
    ValuesOfDnsRows(domainId, dns, "MX");
    ValuesOfDnsRows(domainId, dns, "TXT");
    ValuesOfDnsRows(domainId, dns, "NS");
    assert mx + [] + [] == mx && [] + txt + [] == txt && [] + [] + ns == ns;
  }

  /** Every row of a DNS save belongs to the domain and is MX, TXT or NS,
      and the types come in that order. */
  lemma DnsRowsOrdered(domainId: string, dns: DnsInput)
    ensures forall r :: r in DnsRows(domainId, dns) ==>
              r.domainId == domainId && (r.recordType == "MX" || r.recordType == "TXT" || r.recordType == "NS")
    ensures forall i, j :: 0 <= i < j < |DnsRows(domainId, dns)| ==>
              TypeRank(DnsRows(domainId, dns)[i].recordType) <= TypeRank(DnsRows(domainId, dns)[j].recordType)
  {
    var mx := TypedRows(domainId, "MX", dns.mxRecords.GetOr([]));
    var txt := TypedRows(domainId, "TXT", dns.txtRecords.GetOr([]));
    var rows := DnsRows(domainId, dns);
    DistinctTypes();
    forall i | 0 <= i < |rows|
      ensures rows[i].domainId == domainId
      ensures TypeRank(rows[i].recordType) == if i < |mx| then 0 else if i < |mx| + |txt| then 1 else 2
      ensures rows[i].recordType == if i < |mx| then "MX" else if i < |mx| + |txt| then "TXT" else "NS"
    {
    }
  }

  // ---------------------------------------------------------------------
  // Tags
  // ---------------------------------------------------------------------

  /** Why a tag could not be saved: its insert failed with an error other
      than the duplicate key, or the existing tag could not be fetched. */
  datatype TagFailure = InsertRejected(tag: string) | FetchRejected(tag: string)

  /** Every name is held by at most one tag (the `tags` table's unique key
      on the name, whose violation is error `23505`). */
  ghost predicate UniqueNames(tags: seq<Tag>)
  {
    forall n :: CountNamed(tags, n) <= 1
  }

  /** One tag of `saveTags`: insert the name; on a duplicate key fetch the
      tag of that name with `.single()`; any other insert error fails.
      `failing` holds the names whose insert fails for a reason other than
      the duplicate key. */
  method InsertOrFetchNamed(store: TagTables, name: string, failing: set<string>)
    returns (id: nat, failure: Option<TagFailure>)
    modifies store
    ensures store.links == old(store.links) && old(store.tags) <= store.tags
    ensures name in failing ==> store.tags == old(store.tags) && failure == Some(InsertRejected(name))
    ensures name !in failing && CountNamed(old(store.tags), name) == 0 ==>
              store.tags == old(store.tags) + [Tag(name, None)] && failure == None && id == |old(store.tags)|
    ensures name !in failing && CountNamed(old(store.tags), name) > 0 ==>
              store.tags == old(store.tags)
              && (failure == None <==> SingleNamed(old(store.tags), name).Some?)
              && (failure == None ==> id == SingleNamed(old(store.tags), name).value)
              && (failure != None ==> failure == Some(FetchRejected(name)))
    ensures failure == None ==> id < |store.tags| && store.tags[id].name == name
    ensures UniqueNames(old(store.tags)) ==> UniqueNames(store.tags) && (failure == None <==> name !in failing)
  {
    id := 0;
    if name in failing {
      return 0, Some(InsertRejected(name));
    }
    if CountNamed(store.tags, name) == 0 {
      ghost var before := store.tags;
      store.tags := store.tags + [Tag(name, None)];
      forall n
        ensures CountNamed(store.tags, n) == CountNamed(before, n) + (if n == name then 1 else 0)
      {
        AppendTag(before, Tag(name, None), n);
      }
      return |store.tags| - 1, None;
    }
    var existing := SingleNamed(store.tags, name);
    if existing.None? {
      return 0, Some(FetchRejected(name));
    }
    return existing.value, None;
  }

  /** The loop of `saveTags`: each name's tag in turn, stopping at the
      first failure. The result holds one link per name handled, in order. */
  method InsertOrFetchEach(store: TagTables, domainId: string, names: seq<string>, failing: set<string>)
    returns (added: seq<Link>, failure: Option<TagFailure>)
    modifies store
    ensures store.links == old(store.links) && old(store.tags) <= store.tags && |added| <= |names|
    ensures forall k :: 0 <= k < |added| ==>
              added[k].domainId == domainId && added[k].tagId < |store.tags| && store.tags[added[k].tagId].name == names[k]
    ensures failure == None <==> |added| == |names|
    ensures forall k :: 0 <= k < |added| ==> names[k] !in failing
    ensures failure.Some? ==> failure.value.tag == names[|added|]
    ensures failure.Some? && failure.value.InsertRejected? ==> names[|added|] in failing
    ensures failure.Some? && failure.value.FetchRejected? ==> names[|added|] !in failing
    ensures forall i :: |old(store.tags)| <= i < |store.tags| ==>
              store.tags[i] == Tag(store.tags[i].name, None) && store.tags[i].name in names
    ensures UniqueNames(old(store.tags)) ==> UniqueNames(store.tags) && (failure.Some? ==> failure.value.InsertRejected?)
  {
    added := [];
    failure := None;
    while |added| < |names|
      invariant store.links == old(store.links) && old(store.tags) <= store.tags && |added| <= |names|
      invariant forall k :: 0 <= k < |added| ==>
                  added[k].domainId == domainId && added[k].tagId < |store.tags| && store.tags[added[k].tagId].name == names[k]
      invariant forall i :: |old(store.tags)| <= i < |store.tags| ==>
                  store.tags[i] == Tag(store.tags[i].name, None) && store.tags[i].name in names
      invariant UniqueNames(old(store.tags)) ==> UniqueNames(store.tags)
      invariant forall k :: 0 <= k < |added| ==> names[k] !in failing
      decreases |names| - |added|
    {
      ghost var before := store.tags;
      var id, f := InsertOrFetchNamed(store, names[|added|], failing);
      if f.Some? {
        return added, f;
      }
      ExtendNamed(added, Link(domainId, id), before, store.tags, names, domainId);
      added := added + [Link(domainId, id)];
    }
  }

  /** `saveTags` of the database service: nothing for an empty list;
      otherwise each tag is inserted, or fetched on a duplicate key, and
      linked to the domain, stopping at the first failure with the links
      made so far kept. */
  method SaveTags(store: TagTables, domainId: string, names: seq<string>, failing: set<string>)
    returns (failure: Option<TagFailure>)
    requires store.Valid()
    modifies store
    ensures store.Valid() && old(store.tags) <= store.tags && old(store.links) <= store.links
    ensures names == [] ==> failure == None && store.tags == old(store.tags) && store.links == old(store.links)
    ensures |store.links| - |old(store.links)| <= |names|
    ensures failure == None <==> |store.links| == |old(store.links)| + |names|
    ensures forall i :: |old(store.links)| <= i < |store.links| ==>
              store.links[i].domainId == domainId && store.links[i].tagId < |store.tags|
              && store.tags[store.links[i].tagId].name == names[i - |old(store.links)|]
    ensures failure.Some? ==> failure.value.tag == names[|store.links| - |old(store.links)|]
    ensures failure.Some? && failure.value.InsertRejected? ==> names[|store.links| - |old(store.links)|] in failing
    ensures forall k :: 0 <= k < |store.links| - |old(store.links)| ==> names[k] !in failing
    ensures UniqueNames(old(store.tags)) ==> (failure == None <==> forall k :: 0 <= k < |names| ==> names[k] !in failing)
    ensures forall i :: |old(store.tags)| <= i < |store.tags| ==>
              store.tags[i] == Tag(store.tags[i].name, None) && store.tags[i].name in names
    ensures UniqueNames(old(store.tags)) ==> UniqueNames(store.tags) && (failure.Some? ==> failure.value.InsertRejected?)
  {
    if names == [] {
      return None;
    }
    var added;
    added, failure := InsertOrFetchEach(store, domainId, names, failing);
    BoundedConcat(store.links, added, |store.tags|);
    store.links := store.links + added;
  }

  /** Under the unique key an existing name is always fetched: only an
      insert error other than the duplicate can fail a name. */
  lemma UniqueNameFetched(tags: seq<Tag>, name: string)
    requires UniqueNames(tags) && CountNamed(tags, name) > 0
    ensures SingleNamed(tags, name).Some? && tags[SingleNamed(tags, name).value].name == name
  {
  }

  // ---------------------------------------------------------------------
  // saveDomain
  // ---------------------------------------------------------------------

  /** What the database answers to the inserts of one save. */
  datatype SaveAnswers = SaveAnswers(inserted: Option<DbDomain>, domainError: Option<DbError>,
                                     ipError: Option<DbError>, notificationError: Option<DbError>,
                                     dnsError: Option<DbError>, failingTags: set<string>)

  /** The inserts one save makes besides the domain row and the tags. */
  datatype SavedRows = SavedRows(domain: DomainPayload, ips: Option<seq<IpRow>>,
                                 notifications: Option<seq<NotificationRow>>, dns: Option<seq<DnsRow>>)

  /** What the failures of the parallel saves can be. */
  function SubFailures(rows: SavedRows, answers: SaveAnswers, tagFailure: Option<TagFailure>): set<Failure>
  {
    (if InsertFailure(rows.ips, answers.ipError).Some? then {InsertFailure(rows.ips, answers.ipError).value} else {})
    + (if InsertFailure(rows.notifications, answers.notificationError).Some?
       then {InsertFailure(rows.notifications, answers.notificationError).value} else {})
    + (if InsertFailure(rows.dns, answers.dnsError).Some? then {InsertFailure(rows.dns, answers.dnsError).value} else {})
    + (if tagFailure.Some? then {TagFailed(tagFailure.value)} else {})
  }

  /** `saveDomain`: inserts the domain row for the signed-in user; its
      error, or no row back, fails the save before anything else. Then the
      addresses, tags, notifications and DNS records of the new domain id
      are all saved; the save fails with one of their failures when any
      fails, and otherwise returns the mapped domain. */
  method SaveDomain(store: TagTables, domain: DomainInput, user: Option<string>, ips: seq<IpInput>,
                    tags: seq<string>, notifications: seq<NotificationInput>, dns: Option<DnsInput>,
                    answers: SaveAnswers)
    returns (result: Outcome<Domain>, rows: SavedRows, tagFailure: Option<TagFailure>)
    requires store.Valid()
    modifies store
    ensures store.Valid()
    ensures rows.domain == DomainPayloadOf(domain, user)
    ensures CheckInsertedDomain(answers.inserted, answers.domainError).Throws? ==>
              result == Throws(CheckInsertedDomain(answers.inserted, answers.domainError).failure)
              && rows == SavedRows(DomainPayloadOf(domain, user), None, None, None)
              && store.tags == old(store.tags) && store.links == old(store.links)
    ensures CheckInsertedDomain(answers.inserted, answers.domainError).Done? ==>
              var id := answers.inserted.value.id;
              rows == SavedRows(DomainPayloadOf(domain, user), IpRows(id, ips), NotificationRows(id, notifications),
                                if dns.Some? then Some(DnsRows(id, dns.value)) else None)
              && old(store.links) <= store.links
              && (forall i :: |old(store.links)| <= i < |store.links| ==> store.links[i].domainId == id)
              && (tagFailure == None <==> |store.links| == |old(store.links)| + |tags|)
              && |store.links| <= |old(store.links)| + |tags|
              && (forall k :: 0 <= k < |store.links| - |old(store.links)| ==> tags[k] !in answers.failingTags)
              && ((exists k :: 0 <= k < |tags| && tags[k] in answers.failingTags) ==> tagFailure.Some? && result.Throws?)
              && (UniqueNames(old(store.tags)) ==>
                    (tagFailure == None <==> forall k :: 0 <= k < |tags| ==> tags[k] !in answers.failingTags))
              && (result.Done? <==> SubFailures(rows, answers, tagFailure) == {})
              && (result.Throws? ==> result.failure in SubFailures(rows, answers, tagFailure))
    ensures CheckInsertedDomain(answers.inserted, answers.domainError).Throws? ==> tagFailure == None
    ensures result.Done? ==> result.value == MapDbDomainToDomain(answers.inserted.value)
  {
    var payload := DomainPayloadOf(domain, user);
    var checked := CheckInsertedDomain(answers.inserted, answers.domainError);
    if checked.Throws? {
      return Throws(checked.failure), SavedRows(payload, None, None, None), None;
    }
    var id := checked.value.id;
    var ipInsert := IpRows(id, ips);
    tagFailure := SaveTags(store, id, tags, answers.failingTags);
    var notificationInsert := NotificationRows(id, notifications);
    var dnsInsert := SaveDnsRecords(id, dns);
    rows := SavedRows(payload, ipInsert, notificationInsert, dnsInsert);
    var failures := SubFailures(rows, answers, tagFailure);
    if failures == {} {
      result := Done(MapDbDomainToDomain(checked.value));
    } else {
      var f :| f in failures;
      result := Throws(f);
    }
    SaveDomainFailures(rows, answers, tagFailure);
  }

  /** The save's failure set is empty exactly when no insert fails. */
  lemma SaveDomainFailures(rows: SavedRows, answers: SaveAnswers, tagFailure: Option<TagFailure>)
    ensures SubFailures(rows, answers, tagFailure) == {} <==>
              InsertFailure(rows.ips, answers.ipError).None? && InsertFailure(rows.notifications, answers.notificationError).None?
              && InsertFailure(rows.dns, answers.dnsError).None? && tagFailure.None?
  {
  }

  // ---------------------------------------------------------------------
  // listDomainNames
  // ---------------------------------------------------------------------

  /** `listDomainNames` given the query's data (`None` for null) and error. */
  function ListDomainNames(data: Option<seq<string>>, error: Option<DbError>): (r: Outcome<seq<string>>)
    ensures error.Some? ==> r == Throws(DbFailure(error.value.code))
    ensures error.None? ==> r.Done? && |r.value| == |data.GetOr([])|
    ensures error.None? ==> forall i :: 0 <= i < |r.value| ==> r.value[i] == Lower(data.GetOr([])[i])
  {
    if error.Some? then Throws(DbFailure(error.value.code))
    else
      var names := data.GetOr([]);
      Done(seq(|names|, i requires 0 <= i < |names| => Lower(names[i])))
  }

  /** Every listed name is free of upper-case letters, and listing the
      list again gives it back unchanged. */
  lemma ListedNamesLowered(data: Option<seq<string>>)
    ensures ListDomainNames(data, None).Done?
    ensures forall i, j :: 0 <= i < |ListDomainNames(data, None).value| && 0 <= j < |ListDomainNames(data, None).value[i]|
              ==> !IsUpper(ListDomainNames(data, None).value[i][j])
    ensures ListDomainNames(Some(ListDomainNames(data, None).value), None) == ListDomainNames(data, None)
  {
    var names := ListDomainNames(data, None).value;
    var again := ListDomainNames(Some(names), None).value;
    forall i | 0 <= i < |names|
      ensures again[i] == names[i]
    {
      LowerIdempotent(data.GetOr([])[i]);
    }
    assert again == names;
  }
}
