/** The page listing the user's domains: which table columns are visible
    for the selected fields, and the search over the list. The fuzzy search
    is an input (its result list); the substring search used when it finds
    nothing is modelled. */
module DomainList {
  import opened Wrappers
  import opened Text

  /** The fields of a listed domain the search reads. */
  datatype ListedDomain = ListedDomain(
    domainName: string,
    registrarName: Option<string>,
    tags: Option<seq<string>>,
    notes: Option<string>,
    ipAddresses: Option<seq<string>>)

  /** The table's columns, in display order. */
  const AllColumns: seq<string> := ["domain_name", "registrar", "expiry_date", "tags", "notes",
                                    "ip_addresses", "ssl", "whois", "host", "dns"]

  /** The field keys the filter component offers, one per column. */
  const FieldKeys: seq<string> := ["domainName", "registrar", "expiryDate", "tags", "notes",
                                   "ipAddresses", "sslCertificate", "whoisRecord", "hostInfo", "dnsRecords"]

  /** `mapFieldToColumn`: a known field key to its column, any other value unchanged. */
  function MapFieldToColumn(field: string): string
  {
    if field == "domainName" then "domain_name"
    else if field == "registrar" then "registrar"
    else if field == "expiryDate" then "expiry_date"
    else if field == "tags" then "tags"
    else if field == "notes" then "notes"
    else if field == "ipAddresses" then "ip_addresses"
    else if field == "sslCertificate" then "ssl"
    else if field == "whoisRecord" then "whois"
    else if field == "hostInfo" then "host"
    else if field == "dnsRecords" then "dns"
    else field
  }

  /** The ten field keys map, in order, onto the ten columns; every other
      value maps to itself. */
  lemma MapFieldToColumnTable(field: string)
    ensures |FieldKeys| == |AllColumns|
    ensures forall i :: 0 <= i < |FieldKeys| ==> MapFieldToColumn(FieldKeys[i]) == AllColumns[i]
    ensures field !in FieldKeys ==> MapFieldToColumn(field) == field
  {
  }

  /** The selected fields with `domainName` added in front when missing. */
  function FieldsToShow(fields: seq<string>): (r: seq<string>)
    ensures "domainName" in r
    ensures forall f :: f in r <==> f in fields || f == "domainName"
  {
    if "domainName" in fields then fields else ["domainName"] + fields
  }

  /** Some shown field maps to the column. */
  predicate ColumnSelected(fields: seq<string>, column: string)
  {
    exists f :: f in FieldsToShow(fields) && MapFieldToColumn(f) == column
  }

  /** `allColumns.filter(...)`: the selected columns, in table order. */
  function SelectedColumns(fields: seq<string>, cols: seq<string>): (r: seq<string>)
    ensures forall c :: c in r <==> c in cols && ColumnSelected(fields, c)
  {
    if cols == [] then []
    else
      var rest := SelectedColumns(fields, cols[..|cols| - 1]);
      assert forall c :: c in cols <==> c in cols[..|cols| - 1] || c == cols[|cols| - 1] by {
        assert cols == cols[..|cols| - 1] + [cols[|cols| - 1]];
      }
      if ColumnSelected(fields, cols[|cols| - 1]) then rest + [cols[|cols| - 1]] else rest
  }

  /** The elements of `s` equal to `x`, then the others, each group in
      order: what a stable sort with the "`domain_name` first" comparator
      gives. */
  function MoveToFront(s: seq<string>, x: string): seq<string>
  {
    if s == [] then []
    else
      var rest := MoveToFront(s[..|s| - 1], x);
      var last := s[|s| - 1];
      if last == x then [x] + rest else rest + [last]
  }

  /** The visible columns for a field selection. */
  function VisibleColumns(fields: seq<string>): seq<string>
  {
    MoveToFront(SelectedColumns(fields, AllColumns), "domain_name")
  }

  /** `a` keeps the order of `b`: `a` is obtained from `b` by dropping elements. */
  predicate IsSubsequence(a: seq<string>, b: seq<string>)
    decreases |b|
  {
    if a == [] then true
    else if b == [] then false
    else if a[|a| - 1] == b[|b| - 1] then IsSubsequence(a[..|a| - 1], b[..|b| - 1])
    else IsSubsequence(a, b[..|b| - 1])
  }

  lemma {:induction false} SelectedIsSubsequence(fields: seq<string>, cols: seq<string>)
    ensures IsSubsequence(SelectedColumns(fields, cols), cols)
  {
    if cols != [] {
      var r := SelectedColumns(fields, cols);
      var rest := SelectedColumns(fields, cols[..|cols| - 1]);
      SelectedIsSubsequence(fields, cols[..|cols| - 1]);
      if ColumnSelected(fields, cols[|cols| - 1]) {
        assert r[..|r| - 1] == rest;
      } else {
        SubsequenceExtend(rest, cols[..|cols| - 1], cols[|cols| - 1]);
        assert cols[..|cols| - 1] + [cols[|cols| - 1]] == cols;
      }
    }
  }

  /** A subsequence stays one when an element is appended to the sequence. */
  lemma {:induction false} SubsequenceExtend(a: seq<string>, b: seq<string>, x: string)
    requires IsSubsequence(a, b)
    ensures IsSubsequence(a, b + [x])
    decreases |b|, 1
  {
    if a != [] {
      var bx := b + [x];
      assert bx[..|bx| - 1] == b;
      if a[|a| - 1] == x {
        SubsequenceDropLast(a, b);
      }
    }
  }

  /** Dropping the last element of a non-empty subsequence keeps it a subsequence. */
  lemma {:induction false} SubsequenceDropLast(a: seq<string>, b: seq<string>)
    requires a != [] && IsSubsequence(a, b)
    ensures IsSubsequence(a[..|a| - 1], b)
    decreases |b|, 0
  {
    var bp := b[..|b| - 1];
    assert bp + [b[|b| - 1]] == b;
    if a[|a| - 1] != b[|b| - 1] {
      SubsequenceDropLast(a, bp);
    }
    SubsequenceExtend(a[..|a| - 1], bp, b[|b| - 1]);
  }

  // ---------------------------------------------------------------------
  // Search
  // ---------------------------------------------------------------------

  /** Some entry of an optional list, lower-cased or not, contains the term. */
  predicate AnyIncludes(xs: Option<seq<string>>, term: string, lower: bool)
  {
    xs.Some?
    && (exists i :: 0 <= i < |xs.value| && Includes(if lower then Lower(xs.value[i]) else xs.value[i], term))
  }

  /** `domainMatchesSearch`: the term occurs in the lower-cased name,
      registrar name, a tag or the notes, or, without case mapping, in an
      IP address. */
  predicate DomainMatchesSearch(d: ListedDomain, term: string)
  {
    Includes(Lower(d.domainName), term)
    || (d.registrarName.Some? && Includes(Lower(d.registrarName.value), term))
    || AnyIncludes(d.tags, term, true)
    || (d.notes.Some? && Includes(Lower(d.notes.value), term))
    || AnyIncludes(d.ipAddresses, term, false)
  }

  /** Every domain matches the empty term; a domain with no registrar, tags,
      notes or IPs matches exactly when its lower-cased name contains the term. */
  lemma MatchesSearchCases(d: ListedDomain, term: string)
    ensures DomainMatchesSearch(d, "")
    ensures d.registrarName == None && d.tags == None && d.notes == None && d.ipAddresses == None ==>
      (DomainMatchesSearch(d, term) <==> exists i :: OccursAt(Lower(d.domainName), term, i))
  {
    IncludesEmpty(Lower(d.domainName));
    IncludesIff(Lower(d.domainName), term);
  }

  /** `domains.filter(domain => domainMatchesSearch(domain, term))`. */
  function MatchingDomains(domains: seq<ListedDomain>, term: string): (r: seq<ListedDomain>)
    ensures forall d :: d in r <==> d in domains && DomainMatchesSearch(d, term)
    ensures |r| <= |domains|
  {
    if domains == [] then []
    else
      var rest := MatchingDomains(domains[..|domains| - 1], term);
      var d := domains[|domains| - 1];
      assert forall x :: x in domains <==> x in domains[..|domains| - 1] || x == d by {
        assert domains == domains[..|domains| - 1] + [d];
      }
      if DomainMatchesSearch(d, term) then rest + [d] else rest
  }

  /** The substring filter keeps the domains' order: kept domains appear in
      the result in the order they have in the list. */
  lemma {:induction false} MatchingDomainsOrder(domains: seq<ListedDomain>, term: string, i: nat, j: nat)
    requires i < j < |domains|
    requires DomainMatchesSearch(domains[i], term) && DomainMatchesSearch(domains[j], term)
    ensures exists p, q ::
              0 <= p < q < |MatchingDomains(domains, term)|
              && MatchingDomains(domains, term)[p] == domains[i] && MatchingDomains(domains, term)[q] == domains[j]
  {
    var init := domains[..|domains| - 1];
    var r := MatchingDomains(domains, term);
    var rest := MatchingDomains(init, term);
    if j < |domains| - 1 {
      assert init[i] == domains[i] && init[j] == domains[j];
      MatchingDomainsOrder(init, term, i, j);
      var p, q :| 0 <= p < q < |rest| && rest[p] == domains[i] && rest[q] == domains[j];
      assert r == rest || r == rest + [domains[|domains| - 1]];
      assert r[p] == rest[p] && r[q] == rest[q];
      assert 0 <= p < q < |r| && r[p] == domains[i] && r[q] == domains[j];
    } else {
      assert init[i] == domains[i];
      assert domains[i] in rest;
      var p :| 0 <= p < |rest| && rest[p] == domains[i];
      assert r == rest + [domains[j]];
      assert r[p] == domains[i] && r[|rest|] == domains[j];
    }
  }

  // ---------------------------------------------------------------------
  // The page
  // ---------------------------------------------------------------------

  class DomainListPage {
    var domains: seq<ListedDomain>
    var filteredDomains: seq<ListedDomain>
    var visibleFields: seq<string>
    var searchTerm: string
    var visibleColumns: seq<string>

    /** `loadDomains` on success: both lists are the loaded domains. */
    constructor (loaded: seq<ListedDomain>)
      ensures domains == loaded && filteredDomains == loaded
      ensures visibleFields == [] && searchTerm == "" && visibleColumns == []
    {
      domains := loaded;
      filteredDomains := loaded;
      visibleFields := [];
      searchTerm := "";
      visibleColumns := [];
    }

    /** `updateVisibleColumns`: filters the columns, then moves `domain_name`
        to the front. */
    method UpdateVisibleColumns()
      modifies this
      ensures visibleColumns == VisibleColumns(visibleFields)
      ensures domains == old(domains) && filteredDomains == old(filteredDomains)
      ensures visibleFields == old(visibleFields) && searchTerm == old(searchTerm)
    {
      var fieldsToShow := FieldsToShow(visibleFields);
      var selected: seq<string> := [];
      for i := 0 to |AllColumns|
        invariant selected == SelectedColumns(visibleFields, AllColumns[..i])
      {
        var column := AllColumns[i];
        assert AllColumns[..i + 1][..i] == AllColumns[..i];
        if exists f :: f in fieldsToShow && MapFieldToColumn(f) == column {
          selected := selected + [column];
        }
      }
      assert AllColumns[..|AllColumns|] == AllColumns;
      var sorted: seq<string> := [];
      for i := 0 to |selected|
        invariant sorted == MoveToFront(selected[..i], "domain_name")
      {
        assert selected[..i + 1][..i] == selected[..i];
        if selected[i] == "domain_name" {
          sorted := ["domain_name"] + sorted;
        } else {
          sorted := sorted + [selected[i]];
        }
      }
      assert selected[..|selected|] == selected;
      visibleColumns := sorted;
    }

    /** `onVisibilityChange`. */
    method OnVisibilityChange(selectedFields: seq<string>)
      modifies this
      ensures visibleFields == selectedFields
      ensures visibleColumns == VisibleColumns(selectedFields)
      ensures domains == old(domains) && filteredDomains == old(filteredDomains) && searchTerm == old(searchTerm)
    {
      visibleFields := selectedFields;
      UpdateVisibleColumns();
    }

    /** `filterDomains`, with the fuzzy search's result list as input: all
        domains for an empty term, the fuzzy results when there are any,
        otherwise the substring matches. */
    method FilterDomains(fuseResults: seq<ListedDomain>)
      modifies this
      ensures searchTerm == "" ==> filteredDomains == domains
      ensures searchTerm != "" && fuseResults != [] ==> filteredDomains == fuseResults
      ensures searchTerm != "" && fuseResults == [] ==> filteredDomains == MatchingDomains(domains, Lower(searchTerm))
      ensures domains == old(domains) && searchTerm == old(searchTerm)
      ensures visibleFields == old(visibleFields) && visibleColumns == old(visibleColumns)
    {
      if searchTerm == "" {
        filteredDomains := domains;
        return;
      }
      filteredDomains := fuseResults;
      if |filteredDomains| == 0 {
        filteredDomains := MatchingDomains(domains, Lower(searchTerm));
      }
    }

    /** `onSearchChange`: the term is stored lower-cased, then the list is filtered. */
    method OnSearchChange(term: string, fuseResults: seq<ListedDomain>)
      modifies this
      ensures searchTerm == Lower(term)
      ensures term == "" ==> filteredDomains == domains
      ensures term != "" && fuseResults != [] ==> filteredDomains == fuseResults
      ensures term != "" && fuseResults == [] ==> filteredDomains == MatchingDomains(domains, Lower(term))
      ensures domains == old(domains)
      ensures visibleFields == old(visibleFields) && visibleColumns == old(visibleColumns)
    {
      searchTerm := Lower(term);
      LowerIdempotent(term);
      FilterDomains(fuseResults);
    }

    /** `resetFilters`: no search term, every domain shown. The filter
        component's own reset of its selected fields is outside this model,
        so nothing is promised about the selected fields or the columns. */
    method ResetFilters()
      modifies this
      ensures searchTerm == "" && filteredDomains == domains
      ensures domains == old(domains)
    {
      searchTerm := "";
      filteredDomains := domains;
    }
  }

  /** `domain_name` is always visible and always first, whatever is selected;
      any other column is visible exactly when a selected field maps to it. */
  lemma VisibleColumnsProperties(fields: seq<string>)
    ensures |VisibleColumns(fields)| > 0 && VisibleColumns(fields)[0] == "domain_name"
    ensures forall c :: c != "domain_name" ==>
      (c in VisibleColumns(fields) <==> c in AllColumns && exists f :: f in fields && MapFieldToColumn(f) == c)
  {
    var sel := SelectedColumns(fields, AllColumns);
    assert ColumnSelected(fields, "domain_name") by {
      assert "domainName" in FieldsToShow(fields);
    }
    assert "domain_name" in sel;
    MoveToFrontFacts(sel, "domain_name");
    forall c | c != "domain_name"
      ensures ColumnSelected(fields, c) <==> exists f :: f in fields && MapFieldToColumn(f) == c
    {
      assert MapFieldToColumn("domainName") != c;
    }
  }

  /** `MoveToFront` keeps the elements and puts `x` first when it occurs. */
  lemma {:induction false} MoveToFrontFacts(s: seq<string>, x: string)
    ensures forall y :: y in MoveToFront(s, x) <==> y in s
    ensures |MoveToFront(s, x)| == |s|
    ensures x in s ==> MoveToFront(s, x)[0] == x
  {
    if s != [] {
      var init := s[..|s| - 1];
      MoveToFrontFacts(init, x);
      assert s == init + [s[|s| - 1]];
    }
  }

  /** The columns other than `domain_name` keep the table's order. */
  lemma {:induction false} VisibleColumnsKeepOrder(fields: seq<string>)
    ensures IsSubsequence(SelectedColumns(fields, AllColumns), AllColumns)
    ensures MoveToFront(SelectedColumns(fields, AllColumns), "domain_name") == SelectedColumns(fields, AllColumns)
  {
    SelectedIsSubsequence(fields, AllColumns);
    var sel := SelectedColumns(fields, AllColumns);
    SelectedHead(fields);
    MoveToFrontOfHead(sel, "domain_name");
  }

  /** `domain_name` heads the table, so it heads any selection that contains it. */
  lemma SelectedHead(fields: seq<string>)
    ensures "domain_name" in SelectedColumns(fields, AllColumns)
    ensures SelectedColumns(fields, AllColumns)[0] == "domain_name"
    ensures "domain_name" !in SelectedColumns(fields, AllColumns)[1..]
  {
    var sel := SelectedColumns(fields, AllColumns);
    assert ColumnSelected(fields, "domain_name") by {
      assert "domainName" in FieldsToShow(fields);
    }
    SelectedFromPrefix(fields, AllColumns, 1);
  }

  /** The selection of the whole table starts with the selection of its
      first `n` columns, and its rest comes from the other columns. */
  lemma {:induction false} SelectedFromPrefix(fields: seq<string>, cols: seq<string>, n: nat)
    requires n <= |cols|
    ensures SelectedColumns(fields, cols[..n]) <= SelectedColumns(fields, cols)
    ensures forall c :: c in SelectedColumns(fields, cols)[|SelectedColumns(fields, cols[..n])|..] ==> c in cols[n..]
    decreases |cols|
  {
    if n < |cols| {
      var init := cols[..|cols| - 1];
      assert init[..n] == cols[..n];
      SelectedFromPrefix(fields, init, n);
      assert forall c :: c in init[n..] ==> c in cols[n..];
    } else {
      assert cols[..n] == cols;
    }
  }

  /** With `x` at the head only, moving it to the front changes nothing. */
  lemma {:induction false} MoveToFrontOfHead(s: seq<string>, x: string)
    requires s != [] && s[0] == x && x !in s[1..]
    ensures MoveToFront(s, x) == s
    decreases |s|
  {
    {
      if |s| == 1 {
        assert s == [x];
        assert s[..0] == [];
      } else {
        var init := s[..|s| - 1];
        assert init[0] == x && init[1..] == s[1..|s| - 1];
        assert x !in init[1..];
        MoveToFrontOfHead(init, x);
        assert s[|s| - 1] in s[1..];
      }
    }
  }
}
