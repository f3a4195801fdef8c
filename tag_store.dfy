/** The tag tables and the queries over them: `tags` (a name and an owning
    user, unique per owner) and `domain_tags` (links from a domain to a
    tag). A tag's id is its position in the table. */
module TagStore {
  import opened Wrappers

  datatype Tag = Tag(name: string, userId: Option<string>)

  /** A `domain_tags` row. */
  datatype Link = Link(domainId: string, tagId: nat)

  /** Why a save stopped. */
  datatype TagError = Unauthenticated | InsertFailed(tag: string)

  const MsgUnauthenticated: string := "User must be authenticated to save tags."

  // ---------------------------------------------------------------------
  // Table lookups
  // ---------------------------------------------------------------------

  /** The first tag owned by `owner` with this name (`.eq('name').eq('user_id').single()`,
      which the per-owner uniqueness makes the only one). */
  function FindOwned(tags: seq<Tag>, name: string, owner: string): (r: Option<nat>)
    ensures r.Some? ==> r.value < |tags| && tags[r.value] == Tag(name, Some(owner))
    ensures r.None? <==> forall i :: 0 <= i < |tags| ==> tags[i] != Tag(name, Some(owner))
  {
    if tags == [] then None
    else
      var r := FindOwned(tags[..|tags| - 1], name, owner);
      if r.Some? then r
      else if tags[|tags| - 1] == Tag(name, Some(owner)) then Some(|tags| - 1)
      else None
  }

  /** The number of tags with this name, whoever owns them. */
  function CountNamed(tags: seq<Tag>, name: string): nat
  {
    if tags == [] then 0
    else CountNamed(tags[..|tags| - 1], name) + (if tags[|tags| - 1].name == name then 1 else 0)
  }

  /** The first tag with this name. */
  function FindNamed(tags: seq<Tag>, name: string): (r: Option<nat>)
    ensures r.Some? ==> r.value < |tags| && tags[r.value].name == name
    ensures r.None? <==> forall i :: 0 <= i < |tags| ==> tags[i].name != name
  {
    if tags == [] then None
    else
      var r := FindNamed(tags[..|tags| - 1], name);
      if r.Some? then r
      else if tags[|tags| - 1].name == name then Some(|tags| - 1)
      else None
  }

  /** `.select('id').eq('name', name).single()`: the tag when exactly one
      has the name, nothing otherwise. */
  function SingleNamed(tags: seq<Tag>, name: string): (r: Option<nat>)
    ensures r.Some? ==> r.value < |tags| && tags[r.value].name == name && CountNamed(tags, name) == 1
    ensures r.None? <==> CountNamed(tags, name) != 1
  {
    if CountNamed(tags, name) == 1 then
      NamedCounted(tags, name);
      FindNamed(tags, name)
    else None
  }

  lemma {:induction false} NamedCounted(tags: seq<Tag>, name: string)
    ensures CountNamed(tags, name) > 0 <==> FindNamed(tags, name).Some?
  {
    if tags != [] {
      NamedCounted(tags[..|tags| - 1], name);
    }
  }

  lemma AppendTag(tags: seq<Tag>, t: Tag, name: string)
    ensures CountNamed(tags + [t], name) == CountNamed(tags, name) + (if t.name == name then 1 else 0)
    ensures FindNamed(tags, name).Some? ==> FindNamed(tags + [t], name) == FindNamed(tags, name)
  {
    assert (tags + [t])[..|tags|] == tags;
  }

  predicate Owned(tags: seq<Tag>, name: string, owner: string)
  {
    exists i :: 0 <= i < |tags| && tags[i] == Tag(name, Some(owner))
  }

  /** No owner has two tags of the same name (the table's unique key). */
  predicate UniqueOwned(tags: seq<Tag>)
  {
    forall i, j :: 0 <= i < |tags| && 0 <= j < |tags| && tags[i].userId.Some? && tags[i] == tags[j] ==> i == j
  }

  /** Growing `a` into `b` leaves every name held by exactly one tag with
      that same tag. */
  ghost predicate KeepsSingles(a: seq<Tag>, b: seq<Tag>)
  {
    forall n :: CountNamed(a, n) == 1 ==> CountNamed(b, n) == 1 && SingleNamed(b, n) == SingleNamed(a, n)
  }

  /** Growing `a` into `b` creates a name that `a` lacks at most once. */
  ghost predicate CreatesOnce(a: seq<Tag>, b: seq<Tag>)
  {
    forall n :: CountNamed(a, n) == 0 ==> CountNamed(b, n) <= 1
  }

  lemma ComposeGrowth(a: seq<Tag>, b: seq<Tag>, c: seq<Tag>)
    requires KeepsSingles(a, b) && CreatesOnce(a, b) && KeepsSingles(b, c) && CreatesOnce(b, c)
    ensures KeepsSingles(a, c) && CreatesOnce(a, c)
  {
    forall n | CountNamed(a, n) == 0
      ensures CountNamed(c, n) <= 1
    {
      if CountNamed(b, n) == 1 {
        assert CountNamed(c, n) == 1;
      }
    }
  }

  /** The links of other domains, in order (`delete().eq('domain_id', d)` keeps these). */
  function OtherDomains(links: seq<Link>, d: string): (r: seq<Link>)
    ensures forall k :: 0 <= k < |r| ==> r[k].domainId != d && r[k] in links
  {
    if links == [] then []
    else OtherDomains(links[..|links| - 1], d) + (if links[|links| - 1].domainId != d then [links[|links| - 1]] else [])
  }

  /** The links of one domain, in order. */
  function LinksOf(links: seq<Link>, d: string): (r: seq<Link>)
    ensures forall k :: 0 <= k < |r| ==> r[k].domainId == d && r[k] in links
  {
    if links == [] then []
    else LinksOf(links[..|links| - 1], d) + (if links[|links| - 1].domainId == d then [links[|links| - 1]] else [])
  }

  lemma {:induction false} OtherDomainsOfOthers(ys: seq<Link>, d: string)
    requires forall k :: 0 <= k < |ys| ==> ys[k].domainId != d
    ensures OtherDomains(ys, d) == ys && LinksOf(ys, d) == []
  {
    if ys != [] {
      OtherDomainsOfOthers(ys[..|ys| - 1], d);
      assert ys[..|ys| - 1] + [ys[|ys| - 1]] == ys;
    }
  }

  lemma {:induction false} LinksOfAppend(xs: seq<Link>, ys: seq<Link>, d: string)
    ensures LinksOf(xs + ys, d) == LinksOf(xs, d) + LinksOf(ys, d)
    ensures OtherDomains(xs + ys, d) == OtherDomains(xs, d) + OtherDomains(ys, d)
    decreases |ys|
  {
    if ys == [] {
      assert xs + ys == xs;
    } else {
      var init := ys[..|ys| - 1];
      assert (xs + ys)[..|xs + ys| - 1] == xs + init;
      LinksOfAppend(xs, init, d);
    }
  }

  lemma {:induction false} LinksOfSame(ys: seq<Link>, d: string)
    requires forall k :: 0 <= k < |ys| ==> ys[k].domainId == d
    ensures LinksOf(ys, d) == ys && OtherDomains(ys, d) == []
  {
    if ys != [] {
      LinksOfSame(ys[..|ys| - 1], d);
      assert ys[..|ys| - 1] + [ys[|ys| - 1]] == ys;
    }
  }

  /** The number of links to a tag: its `domain_count`. */
  function DomainCount(links: seq<Link>, tagId: nat): nat
  {
    if links == [] then 0
    else DomainCount(links[..|links| - 1], tagId) + (if links[|links| - 1].tagId == tagId then 1 else 0)
  }

  /** A row of `getTagsWithDomainCounts`. */
  datatype TagWithCount = TagWithCount(id: nat, tag: Tag, domainCount: nat)

  function Counted(tags: seq<Tag>, links: seq<Link>): (rows: seq<TagWithCount>)
    ensures |rows| == |tags|
    ensures forall i :: 0 <= i < |tags| ==> rows[i] == TagWithCount(i, tags[i], DomainCount(links, i))
  {
    seq(|tags|, i requires 0 <= i < |tags| => TagWithCount(i, tags[i], DomainCount(links, i)))
  }

  function SumCounts(rows: seq<TagWithCount>): nat
  {
    if rows == [] then 0 else SumCounts(rows[..|rows| - 1]) + rows[|rows| - 1].domainCount
  }

  /** The links whose tag is below `n`. */
  function LinksBelow(links: seq<Link>, n: nat): nat
  {
    if links == [] then 0
    else LinksBelow(links[..|links| - 1], n) + (if links[|links| - 1].tagId < n then 1 else 0)
  }

  lemma {:induction false} LinksBelowStep(links: seq<Link>, n: nat)
    ensures LinksBelow(links, n + 1) == LinksBelow(links, n) + DomainCount(links, n)
  {
    if links != [] {
      LinksBelowStep(links[..|links| - 1], n);
    }
  }

  lemma {:induction false} NoLinksBelowZero(links: seq<Link>)
    ensures LinksBelow(links, 0) == 0
  {
    if links != [] {
      NoLinksBelowZero(links[..|links| - 1]);
    }
  }

  lemma {:induction false} LinksBelowAll(links: seq<Link>, n: nat)
    requires forall k :: 0 <= k < |links| ==> links[k].tagId < n
    ensures LinksBelow(links, n) == |links|
  {
    if links != [] {
      LinksBelowAll(links[..|links| - 1], n);
    }
  }

  /** The domain counts add up to the number of links (every link names
      an existing tag). */
  lemma {:induction false} DomainCountsCoverLinks(tags: seq<Tag>, links: seq<Link>)
    requires forall k :: 0 <= k < |links| ==> links[k].tagId < |tags|
    ensures SumCounts(Counted(tags, links)) == |links|
  {
    CountedPrefix(tags, links, |tags|);
    assert Counted(tags, links)[..|tags|] == Counted(tags, links);
    LinksBelowAll(links, |tags|);
  }

  lemma {:induction false} CountedPrefix(tags: seq<Tag>, links: seq<Link>, n: nat)
    requires n <= |tags|
    ensures SumCounts(Counted(tags, links)[..n]) == LinksBelow(links, n)
  {
    if n == 0 {
      NoLinksBelowZero(links);
    } else {
      CountedPrefix(tags, links, n - 1);
      var rows := Counted(tags, links);
      assert rows[..n][..n - 1] == rows[..n - 1];
      LinksBelowStep(links, n - 1);
    }
  }

  /** Appends a link naming the next entry of `names`; the links before it
      keep naming theirs while the tags only grow. */
  lemma ExtendNamed(added: seq<Link>, l: Link, before: seq<Tag>, tags: seq<Tag>, names: seq<string>, d: string)
    requires |added| < |names| && before <= tags
    requires forall k :: 0 <= k < |added| ==>
               added[k].domainId == d && added[k].tagId < |before| && before[added[k].tagId].name == names[k]
    requires l.domainId == d && l.tagId < |tags| && tags[l.tagId].name == names[|added|]
    ensures forall k :: 0 <= k < |added + [l]| ==>
              (added + [l])[k].domainId == d && (added + [l])[k].tagId < |tags|
              && tags[(added + [l])[k].tagId].name == names[k]
  {
    forall k | 0 <= k < |added|
      ensures tags[added[k].tagId] == before[added[k].tagId]
    {
    }
  }

  /** Links of other domains followed by links of `d` split back into the two. */
  lemma SplitDomainLinks(kept: seq<Link>, added: seq<Link>, d: string)
    requires forall k :: 0 <= k < |kept| ==> kept[k].domainId != d
    requires forall k :: 0 <= k < |added| ==> added[k].domainId == d
    ensures LinksOf(kept + added, d) == added && OtherDomains(kept + added, d) == kept
  {
    OtherDomainsOfOthers(kept, d);
    LinksOfSame(added, d);
    LinksOfAppend(kept, added, d);
    assert [] + added == added && kept + [] == kept;
  }

  /** Entries of a prefix of the tags read the same in the whole. */
  lemma PrefixLookups(added: seq<Link>, before: seq<Tag>, tags: seq<Tag>)
    requires before <= tags
    requires forall k :: 0 <= k < |added| ==> added[k].tagId < |before|
    ensures forall k :: 0 <= k < |added| ==> tags[added[k].tagId] == before[added[k].tagId]
  {
  }

  /** Inserting a tag the owner lacks: the owner then has exactly one more
      name, and owners still have each name at most once. */
  lemma OwnedAfterInsert(before: seq<Tag>, name: string, owner: string)
    requires !Owned(before, name, owner)
    ensures forall n :: Owned(before + [Tag(name, Some(owner))], n, owner) <==> Owned(before, n, owner) || n == name
    ensures UniqueOwned(before) ==> UniqueOwned(before + [Tag(name, Some(owner))])
  {
    var tags := before + [Tag(name, Some(owner))];
    forall n | Owned(tags, n, owner)
      ensures Owned(before, n, owner) || n == name
    {
      var i :| 0 <= i < |tags| && tags[i] == Tag(n, Some(owner));
      if i < |before| {
        assert before[i] == tags[i];
      }
    }
    forall n | Owned(before, n, owner)
      ensures Owned(tags, n, owner)
    {
      var i :| 0 <= i < |before| && before[i] == Tag(n, Some(owner));
      assert tags[i] == before[i];
    }
    assert tags[|before|] == Tag(name, Some(owner));
    if UniqueOwned(before) {
      forall i, j | 0 <= i < |tags| && 0 <= j < |tags| && tags[i].userId.Some? && tags[i] == tags[j]
        ensures i == j
      {
        if i < |before| && j < |before| {
          assert before[i] == tags[i] && before[j] == tags[j];
        }
      }
    }
  }

  lemma BoundedConcat(xs: seq<Link>, ys: seq<Link>, n: nat)
    requires forall l :: l in xs ==> l.tagId < n
    requires forall k :: 0 <= k < |ys| ==> ys[k].tagId < n
    ensures forall l :: l in xs + ys ==> l.tagId < n
  {
    forall l | l in xs + ys
      ensures l.tagId < n
    {
      if l !in xs {
        var k :| 0 <= k < |ys| && ys[k] == l;
      }
    }
  }

  // ---------------------------------------------------------------------
  // The store
  // ---------------------------------------------------------------------

  class TagTables {
    var tags: seq<Tag>
    var links: seq<Link>

    /** Every link names an existing tag. */
    predicate Valid()
      reads this
    {
      forall l :: l in links ==> l.tagId < |tags|
    }

    constructor ()
      ensures tags == [] && links == [] && Valid()
    {
      tags := [];
      links := [];
    }

    /** `getTagsWithDomainCounts`: every tag with its number of links. */
    function TagsWithDomainCounts(): (rows: seq<TagWithCount>)
      reads this
      ensures |rows| == |tags|
      ensures forall i :: 0 <= i < |rows| ==> rows[i].id == i && rows[i].tag == tags[i]
      ensures forall i :: 0 <= i < |rows| ==> rows[i].domainCount == DomainCount(links, i)
    {
      Counted(tags, links)
    }

    /** Inserts `name` for `owner`; on the duplicate-key error fetches the
        owner's existing tag; any other insert error is an error. */
    method InsertOrFetch(name: string, owner: string, failing: set<string>) returns (id: Option<nat>)
      modifies this
      ensures links == old(links)
      ensures id.Some? ==> id.value < |tags| && tags[id.value] == Tag(name, Some(owner))
      ensures Owned(old(tags), name, owner) ==> tags == old(tags) && id == FindOwned(old(tags), name, owner)
      ensures !Owned(old(tags), name, owner) && name in failing ==> tags == old(tags) && id == None
      ensures !Owned(old(tags), name, owner) && name !in failing ==>
                tags == old(tags) + [Tag(name, Some(owner))] && id == Some(|old(tags)|)
    {
      var existing := FindOwned(tags, name, owner);
      if existing.Some? {
        id := existing;
      } else if name in failing {
        id := None;
      } else {
        tags := tags + [Tag(name, Some(owner))];
        id := Some(|tags| - 1);
      }
    }

    /** The loop of `saveTags`: inserts or fetches each name's tag for
        `owner` in turn, stopping at the first failing insert. The result
        holds one link per name handled, in order. */
    method InsertEach(domainId: string, names: seq<string>, owner: string, failing: set<string>)
      returns (added: seq<Link>)
      modifies this
      ensures links == old(links) && old(tags) <= tags && |added| <= |names|
      ensures forall k :: 0 <= k < |added| ==>
                added[k].domainId == domainId && added[k].tagId < |tags| && tags[added[k].tagId] == Tag(names[k], Some(owner))
      ensures forall j :: 0 <= j < |added| ==> AvailableAt(old(tags), names, j, owner, failing)
      ensures |added| < |names| ==> !AvailableAt(old(tags), names, |added|, owner, failing)
      ensures forall i :: |old(tags)| <= i < |tags| ==> tags[i].userId == Some(owner) && tags[i].name in names
      ensures UniqueOwned(old(tags)) ==> UniqueOwned(tags)
    {
      added := [];
      while |added| < |names|
        invariant links == old(links) && old(tags) <= tags && |added| <= |names|
        invariant forall k :: 0 <= k < |added| ==>
                    added[k].domainId == domainId && added[k].tagId < |tags| && tags[added[k].tagId] == Tag(names[k], Some(owner))
        invariant forall j :: 0 <= j < |added| ==> AvailableAt(old(tags), names, j, owner, failing)
        invariant forall n :: Owned(tags, n, owner) <==> Owned(old(tags), n, owner) || n in names[..|added|]
        invariant forall i :: |old(tags)| <= i < |tags| ==> tags[i].userId == Some(owner) && tags[i].name in names
        invariant UniqueOwned(old(tags)) ==> UniqueOwned(tags)
        decreases |names| - |added|
      {
        var k := |added|;
        ghost var before := tags;
        assert names[..k + 1] == names[..k] + [names[k]];
        var id := InsertOrFetch(names[k], owner, failing);
        if id == None {
          assert !AvailableAt(old(tags), names, k, owner, failing);
          return;
        }
        assert AvailableAt(old(tags), names, k, owner, failing);
        if !Owned(before, names[k], owner) {
          OwnedAfterInsert(before, names[k], owner);
        }
        PrefixLookups(added, before, tags);
        added := added + [Link(domainId, id.value)];
      }
    }

    /** `saveTags`: nothing for an empty list; an error before any change
        without a signed-in user; otherwise each tag is inserted or fetched
        and linked to the domain, stopping at the first failing insert. */
    method SaveTags(domainId: string, names: seq<string>, user: Option<string>, failing: set<string>)
      returns (error: Option<TagError>)
      requires Valid()
      modifies this
      ensures Valid() && old(tags) <= tags && old(links) <= links
      ensures names == [] ==> error == None && tags == old(tags) && links == old(links)
      ensures names != [] && (user == None || user == Some("")) ==>
                error == Some(Unauthenticated) && tags == old(tags) && links == old(links)
      ensures names != [] && user.Some? && user.value != "" ==>
                (error == None <==> forall k :: 0 <= k < |names| ==> AvailableAt(old(tags), names, k, user.value, failing))
      ensures error == None && names != [] ==>
                |links| == |old(links)| + |names|
                && forall i :: |old(links)| <= i < |links| ==>
                     links[i].domainId == domainId && links[i].tagId < |tags|
                     && tags[links[i].tagId] == Tag(names[i - |old(links)|], user)
      ensures names != [] && user.Some? && user.value != "" ==>
                |links| - |old(links)| <= |names|
                && (forall i :: |old(links)| <= i < |links| ==>
                      links[i].domainId == domainId && links[i].tagId < |tags|
                      && tags[links[i].tagId] == Tag(names[i - |old(links)|], user))
                && (error == None <==> |links| == |old(links)| + |names|)
                && (error != None ==>
                      error == Some(InsertFailed(names[|links| - |old(links)|]))
                      && !AvailableAt(old(tags), names, |links| - |old(links)|, user.value, failing))
      ensures forall i :: |old(tags)| <= i < |tags| ==> tags[i].userId == user && tags[i].name in names
      ensures UniqueOwned(old(tags)) ==> UniqueOwned(tags)
    {
      if names == [] {
        return None;
      }
      if user == None || user == Some("") {
        return Some(Unauthenticated);
      }
      var added := InsertEach(domainId, names, user.value, failing);
      BoundedConcat(links, added, |tags|);
      links := links + added;
      if |added| < |names| {
        error := Some(InsertFailed(names[|added|]));
      } else {
        error := None;
      }
    }

    /** One name of `updateTags`: the tag when exactly one has the name,
        otherwise a new tag (without an owner), unless creating it fails. */
    method FindOrCreate(name: string, failing: set<string>) returns (id: Option<nat>)
      modifies this
      ensures links == old(links) && old(tags) <= tags
      ensures id.Some? ==> id.value < |tags| && tags[id.value].name == name
      ensures SingleNamed(old(tags), name).Some? ==> tags == old(tags) && id == SingleNamed(old(tags), name)
      ensures SingleNamed(old(tags), name).None? && name in failing ==> tags == old(tags) && id == None
      ensures SingleNamed(old(tags), name).None? && name !in failing ==>
                tags == old(tags) + [Tag(name, None)] && id == Some(|old(tags)|)
      ensures KeepsSingles(old(tags), tags) && CreatesOnce(old(tags), tags)
    {
      id := SingleNamed(tags, name);
      if id.None? && name !in failing {
        ghost var before := tags;
        tags := tags + [Tag(name, None)];
        id := Some(|tags| - 1);
        forall n
          ensures CountNamed(tags, n) == CountNamed(before, n) + (if n == name then 1 else 0)
          ensures FindNamed(before, n).Some? ==> FindNamed(tags, n) == FindNamed(before, n)
        {
          AppendTag(before, Tag(name, None), n);
        }
        assert CountNamed(before, name) != 1;
      }
    }

    /** The loop of `updateTags`: finds or creates the tag of each name in
        turn, stopping at the first name whose creation fails. The result
        holds one link per name handled, in order. */
    method CollectLinks(domainId: string, names: seq<string>, failing: set<string>) returns (added: seq<Link>)
      modifies this
      ensures links == old(links) && old(tags) <= tags && |added| <= |names|
      ensures forall k :: 0 <= k < |added| ==>
                added[k].domainId == domainId && added[k].tagId < |tags| && tags[added[k].tagId].name == names[k]
      ensures |added| < |names| ==> names[|added|] in failing
      ensures forall k :: 0 <= k < |added| ==> LinkableAt(old(tags), names, k, failing)
      ensures |added| < |names| ==> !LinkableAt(old(tags), names, |added|, failing)
      ensures forall k :: 0 <= k < |added| && CountNamed(old(tags), names[k]) == 1 ==>
                Some(added[k].tagId) == SingleNamed(old(tags), names[k])
      ensures forall k :: 0 <= k < |added| && CountNamed(old(tags), names[k]) != 1 ==> added[k].tagId >= |old(tags)|
      ensures forall i :: |old(tags)| <= i < |tags| ==> tags[i] == Tag(tags[i].name, None) && tags[i].name in names
      ensures KeepsSingles(old(tags), tags) && CreatesOnce(old(tags), tags)
    {
      added := [];
      while |added| < |names|
        invariant old(tags) <= tags && links == old(links) && |added| <= |names|
        invariant forall k :: 0 <= k < |added| ==> LinkedAt(old(tags), tags, names, added, k, domainId, failing)
        invariant forall i :: |old(tags)| <= i < |tags| ==> tags[i] == Tag(tags[i].name, None) && tags[i].name in names
        invariant Tracks(old(tags), tags, names[..|added|])
        decreases |names| - |added|
      {
        ghost var before := tags;
        var id := FindOrCreate(names[|added|], failing);
        if id == None {
          StopStep(old(tags), before, names, |added|, failing);
          TrackedGrowth(old(tags), tags, names[..|added|]);
          CollectedFacts(old(tags), tags, names, added, domainId, failing);
          return;
        }
        LinkStep(old(tags), before, tags, names, |added|, failing, id.value);
        FreshTail(old(tags), before, tags, names, |added|);
        ExtendCollected(old(tags), before, tags, names, added, Link(domainId, id.value), domainId, failing);
        added := added + [Link(domainId, id.value)];
      }
      TrackedGrowth(old(tags), tags, names[..|added|]);
      CollectedFacts(old(tags), tags, names, added, domainId, failing);
    }

    /** `updateTags`: removes every link of the domain, then for each name
        reuses the tag when exactly one has that name, or creates it; a
        failing create stops the update, keeping the links made so far.
        The result is the number of names linked. */
    method UpdateTags(domainId: string, names: seq<string>, failing: set<string>) returns (linked: nat)
      requires Valid()
      modifies this
      ensures Valid() && old(tags) <= tags && linked <= |names|
      ensures OtherDomains(links, domainId) == OtherDomains(old(links), domainId)
      ensures |LinksOf(links, domainId)| == linked
      ensures forall k :: 0 <= k < linked ==>
                LinksOf(links, domainId)[k].tagId < |tags| && tags[LinksOf(links, domainId)[k].tagId].name == names[k]
      ensures linked < |names| ==> names[linked] in failing
      ensures forall k :: 0 <= k < linked ==> LinkableAt(old(tags), names, k, failing)
      ensures linked < |names| ==> !LinkableAt(old(tags), names, linked, failing)
      ensures forall k :: 0 <= k < linked && CountNamed(old(tags), names[k]) == 1 ==>
                Some(LinksOf(links, domainId)[k].tagId) == SingleNamed(old(tags), names[k])
      ensures forall k :: 0 <= k < linked && CountNamed(old(tags), names[k]) != 1 ==>
                LinksOf(links, domainId)[k].tagId >= |old(tags)|
      ensures forall i :: |old(tags)| <= i < |tags| ==> tags[i] == Tag(tags[i].name, None) && tags[i].name in names
      ensures KeepsSingles(old(tags), tags) && CreatesOnce(old(tags), tags)
    {
      var kept := OtherDomains(links, domainId);
      var added := CollectLinks(domainId, names, failing);
      linked := |added|;
      assert forall l :: l in kept ==> l in old(links);
      BoundedConcat(kept, added, |tags|);
      links := kept + added;
      SplitDomainLinks(kept, added, domainId);
    }
  }

  /** Name `k` of `updateTags` gets a link once every earlier name has:
      exactly one tag held the name before the update, or an earlier name
      of the update created it (and it is then found as the single one),
      or creating its tag works. */
  predicate LinkableAt(tags: seq<Tag>, names: seq<string>, k: nat, failing: set<string>)
    requires k < |names|
  {
    CountNamed(tags, names[k]) == 1
    || (CountNamed(tags, names[k]) == 0 && names[k] in names[..k])
    || names[k] !in failing
  }

  /** Growing `start` into `tags` while linking the names `done`: single
      names stay single, a name `start` lacked is held exactly once when it
      is among `done` and not at all otherwise, and a name held twice or
      more still is. */
  ghost predicate Tracks(start: seq<Tag>, tags: seq<Tag>, done: seq<string>)
  {
    KeepsSingles(start, tags)
    && (forall n :: CountNamed(start, n) == 0 ==> CountNamed(tags, n) == (if n in done then 1 else 0))
    && (forall n :: CountNamed(start, n) >= 2 ==> CountNamed(tags, n) >= 2)
  }

  /** Linking a name adds a tag of that name exactly when one is created. */
  lemma {:induction false} GrowByOne(before: seq<Tag>, after: seq<Tag>, m: string, created: bool)
    requires created ==> after == before + [Tag(m, None)]
    requires !created ==> after == before
    ensures forall n :: CountNamed(after, n) == CountNamed(before, n) + (if created && n == m then 1 else 0)
  {
    forall n
      ensures CountNamed(after, n) == CountNamed(before, n) + (if created && n == m then 1 else 0)
    {
      if created {
        AppendTag(before, Tag(m, None), n);
      }
    }
  }

  /** The tags created while linking `names` are unowned and carry one of them. */
  lemma {:induction false} FreshTail(start: seq<Tag>, before: seq<Tag>, after: seq<Tag>, names: seq<string>, j: nat)
    requires j < |names| && start <= before
    requires forall i :: |start| <= i < |before| ==> before[i] == Tag(before[i].name, None) && before[i].name in names
    requires after == before || after == before + [Tag(names[j], None)]
    ensures start <= after
    ensures forall i :: |start| <= i < |after| ==> after[i] == Tag(after[i].name, None) && after[i].name in names
  {
    forall i | |start| <= i < |after|
      ensures after[i] == Tag(after[i].name, None) && after[i].name in names
    {
      if i < |before| {
        assert after[i] == before[i];
      }
    }
  }

  /** A tracked growth keeps every single name and creates each missing one at most once. */
  lemma {:induction false} TrackedGrowth(start: seq<Tag>, tags: seq<Tag>, done: seq<string>)
    requires Tracks(start, tags, done)
    ensures KeepsSingles(start, tags) && CreatesOnce(start, tags)
  {
    forall n | CountNamed(start, n) == 0
      ensures CountNamed(tags, n) <= 1
    {
      assert CountNamed(tags, n) == (if n in done then 1 else 0);
    }
  }

  /** The tracked growth extends by one linked name. */
  lemma {:induction false} TracksStep(start: seq<Tag>, before: seq<Tag>, after: seq<Tag>, done: seq<string>, m: string, created: bool)
    requires Tracks(start, before, done) && KeepsSingles(before, after)
    requires forall n :: CountNamed(after, n) == CountNamed(before, n) + (if created && n == m then 1 else 0)
    requires created <==> CountNamed(before, m) != 1
    ensures Tracks(start, after, done + [m])
  {
    forall n | CountNamed(start, n) == 0
      ensures CountNamed(after, n) == (if n in done + [m] then 1 else 0)
    {
      assert CountNamed(before, n) == (if n in done then 1 else 0);
      assert n in done + [m] <==> n in done || n == m;
    }
    forall n | CountNamed(start, n) >= 2
      ensures CountNamed(after, n) >= 2
    {
      assert CountNamed(before, n) >= 2;
    }
  }

  /** A name of `updateTags` that is found or created: it was linkable,
      its tag is the old single one or a new one, and the growth is tracked. */
  lemma {:induction false} LinkStep(start: seq<Tag>, before: seq<Tag>, after: seq<Tag>, names: seq<string>, j: nat,
                 failing: set<string>, id: nat)
    requires j < |names| && start <= before
    requires Tracks(start, before, names[..j]) && KeepsSingles(before, after)
    requires SingleNamed(before, names[j]).Some? ==> after == before && Some(id) == SingleNamed(before, names[j])
    requires SingleNamed(before, names[j]).None? ==>
               names[j] !in failing && after == before + [Tag(names[j], None)] && id == |before|
    ensures Tracks(start, after, names[..j + 1])
    ensures LinkableAt(start, names, j, failing)
    ensures CountNamed(start, names[j]) == 1 ==> Some(id) == SingleNamed(start, names[j])
    ensures CountNamed(start, names[j]) != 1 ==> id >= |start|
  {
    var m := names[j];
    var created := SingleNamed(before, m).None?;
    GrowByOne(before, after, m, created);
    TracksStep(start, before, after, names[..j], m, created);
    assert names[..j + 1] == names[..j] + [m];
    LinkFacts(start, before, names, j, failing, id, created);
  }

  /** The per-name facts behind `LinkStep`, from the tracked counts of that name. */
  lemma {:induction false} LinkFacts(start: seq<Tag>, before: seq<Tag>, names: seq<string>, j: nat, failing: set<string>,
                  id: nat, created: bool)
    requires j < |names| && start <= before
    requires CountNamed(start, names[j]) == 0 ==>
               CountNamed(before, names[j]) == (if names[j] in names[..j] then 1 else 0)
    requires CountNamed(start, names[j]) >= 2 ==> CountNamed(before, names[j]) >= 2
    requires CountNamed(start, names[j]) == 1 ==>
               CountNamed(before, names[j]) == 1 && SingleNamed(before, names[j]) == SingleNamed(start, names[j])
    requires created <==> CountNamed(before, names[j]) != 1
    requires !created ==> Some(id) == SingleNamed(before, names[j])
    requires created ==> names[j] !in failing && id == |before|
    ensures LinkableAt(start, names, j, failing)
    ensures CountNamed(start, names[j]) == 1 ==> Some(id) == SingleNamed(start, names[j])
    ensures CountNamed(start, names[j]) != 1 ==> id >= |start|
  {
    var m := names[j];
    if CountNamed(start, m) != 1 && !created {
      assert CountNamed(start, m) == 0;
      if id < |start| {
        assert start[id] == before[id];
        NamedCounted(start, m);
      }
    }
  }

  /** Link `k` of `updateTags`: it belongs to the domain, names the `k`-th
      name, that name was linkable, and its tag is the old single one or a
      new one. */
  ghost predicate LinkedAt(start: seq<Tag>, tags: seq<Tag>, names: seq<string>, added: seq<Link>, k: nat,
                           d: string, failing: set<string>)
    requires k < |added| && k < |names|
  {
    && added[k].domainId == d && added[k].tagId < |tags| && tags[added[k].tagId].name == names[k]
    && LinkableAt(start, names, k, failing)
    && (CountNamed(start, names[k]) == 1 ==> Some(added[k].tagId) == SingleNamed(start, names[k]))
    && (CountNamed(start, names[k]) != 1 ==> added[k].tagId >= |start|)
  }

  /** The per-link facts of `updateTags` extend by one link while the tags grow. */
  lemma {:induction false} ExtendCollected(start: seq<Tag>, before: seq<Tag>, tags: seq<Tag>, names: seq<string>,
                                           added: seq<Link>, l: Link, d: string, failing: set<string>)
    requires |added| < |names| && before <= tags
    requires forall k :: 0 <= k < |added| ==> LinkedAt(start, before, names, added, k, d, failing)
    requires l.domainId == d && l.tagId < |tags| && tags[l.tagId].name == names[|added|]
    requires LinkableAt(start, names, |added|, failing)
    requires CountNamed(start, names[|added|]) == 1 ==> Some(l.tagId) == SingleNamed(start, names[|added|])
    requires CountNamed(start, names[|added|]) != 1 ==> l.tagId >= |start|
    ensures forall k :: 0 <= k < |added| + 1 ==> LinkedAt(start, tags, names, added + [l], k, d, failing)
  {
    forall k | 0 <= k < |added| + 1
      ensures LinkedAt(start, tags, names, added + [l], k, d, failing)
    {
      if k < |added| {
        assert LinkedAt(start, before, names, added, k, d, failing);
        assert (added + [l])[k] == added[k];
        assert tags[added[k].tagId] == before[added[k].tagId];
      } else {
        assert (added + [l])[k] == l;
      }
    }
  }

  /** The per-link facts of `updateTags`, one quantifier each. */
  lemma {:induction false} CollectedFacts(start: seq<Tag>, tags: seq<Tag>, names: seq<string>,
                                          added: seq<Link>, d: string, failing: set<string>)
    requires |added| <= |names|
    requires forall k :: 0 <= k < |added| ==> LinkedAt(start, tags, names, added, k, d, failing)
    ensures forall k :: 0 <= k < |added| ==>
              added[k].domainId == d && added[k].tagId < |tags| && tags[added[k].tagId].name == names[k]
    ensures forall k :: 0 <= k < |added| ==> LinkableAt(start, names, k, failing)
    ensures forall k :: 0 <= k < |added| && CountNamed(start, names[k]) == 1 ==>
              Some(added[k].tagId) == SingleNamed(start, names[k])
    ensures forall k :: 0 <= k < |added| && CountNamed(start, names[k]) != 1 ==> added[k].tagId >= |start|
  {
    forall k | 0 <= k < |added|
      ensures added[k].domainId == d && added[k].tagId < |tags| && tags[added[k].tagId].name == names[k]
      ensures LinkableAt(start, names, k, failing)
      ensures CountNamed(start, names[k]) == 1 ==> Some(added[k].tagId) == SingleNamed(start, names[k])
      ensures CountNamed(start, names[k]) != 1 ==> added[k].tagId >= |start|
    {
      assert LinkedAt(start, tags, names, added, k, d, failing);
    }
  }

  /** A name of `updateTags` whose creation fails stops the update: it was
      not linkable. */
  lemma {:induction false} StopStep(start: seq<Tag>, before: seq<Tag>, names: seq<string>, j: nat, failing: set<string>)
    requires j < |names|
    requires Tracks(start, before, names[..j])
    requires SingleNamed(before, names[j]).None? && names[j] in failing
    ensures !LinkableAt(start, names, j, failing)
  {
  }

  /** Name `k` of a save can be saved: its owner already has it, an
      earlier name of the same save created it, or inserting it works. */
  predicate AvailableAt(tags: seq<Tag>, names: seq<string>, k: nat, owner: string, failing: set<string>)
    requires k < |names|
  {
    Owned(tags, names[k], owner) || names[k] in names[..k] || names[k] !in failing
  }
}
