/** Ordered pages over the stored entries (basisdb-node/src/browse.rs). The ordered map is
    given by its rows in ascending order of name. */
module Browse {
  import opened Types
  import opened Kv
  import opened Order

  datatype Row = Row(name: KvName, record: KvRecord)
  datatype Head = Head(name: KvName, etag: Bytes, generation: Generation, size: nat)

  ghost predicate Sorted(rows: seq<Row>) {
    forall i, j :: 0 <= i < j < |rows| ==> NameLess(rows[i].name, rows[j].name)
  }

  /** The rows are the entries, in order. */
  ghost predicate Lists(rows: seq<Row>, entries: map<KvName, KvRecord>) {
    && Sorted(rows)
    && (forall k :: 0 <= k < |rows| ==> rows[k].name in entries && rows[k].record == entries[rows[k].name])
    && (forall n :: n in entries ==> exists k :: 0 <= k < |rows| && rows[k].name == n)
  }

  function HeadOf(row: Row): Head {
    Head(row.name, row.record.etag, row.record.generation, |row.record.body|)
  }

  function Heads(rows: seq<Row>): (hs: seq<Head>)
    ensures |hs| == |rows| && forall k :: 0 <= k < |rows| ==> hs[k] == HeadOf(rows[k])
  {
    seq(|rows|, k requires 0 <= k < |rows| => HeadOf(rows[k]))
  }

  // ----- Limits -----

  /** The limit in force: 50 if none is asked for, and never more than 100. */
  function PageLimit(limit: nat): (r: Option<nat>)
    ensures r.Some? <==> limit <= 100
    ensures limit == 0 ==> r == Some(50)
    ensures 0 < limit <= 100 ==> r == Some(limit)
    ensures r.Some? ==> 1 <= r.value <= 100
  {
    if limit == 0 then Some(50) else if limit <= 100 then Some(limit) else None
  }

  // ----- Listing keys -----

  /** The rows a listing is about. */
  predicate Matches(row: Row, space: Bytes, prefix: Bytes, after: Bytes) {
    row.name.space == space && prefix <= row.name.key && Less(after, row.name.key)
  }

  /** The plain filter. */
  function Filter(rows: seq<Row>, space: Bytes, prefix: Bytes, after: Bytes): (r: seq<Row>)
    ensures |r| <= |rows|
  {
    if rows == [] then []
    else
      var init, last := rows[..|rows| - 1], rows[|rows| - 1];
      Filter(init, space, prefix, after) + (if Matches(last, space, prefix, after) then [last] else [])
  }

  lemma FilterStep(rows: seq<Row>, k: nat, space: Bytes, prefix: Bytes, after: Bytes)
    requires k < |rows|
    ensures Filter(rows[..k + 1], space, prefix, after)
         == Filter(rows[..k], space, prefix, after) + (if Matches(rows[k], space, prefix, after) then [rows[k]] else [])
  {
    assert rows[..k + 1][..k] == rows[..k];
  }

  lemma {:induction false} FilterPrefix(rows: seq<Row>, k: nat, space: Bytes, prefix: Bytes, after: Bytes)
    requires k <= |rows|
    ensures Filter(rows[..k], space, prefix, after) <= Filter(rows, space, prefix, after)
    ensures (forall j :: k <= j < |rows| ==> !Matches(rows[j], space, prefix, after)) ==>
              Filter(rows, space, prefix, after) == Filter(rows[..k], space, prefix, after)
    decreases |rows| - k
  {
    if k < |rows| {
      FilterStep(rows, k, space, prefix, after);
      FilterPrefix(rows, k + 1, space, prefix, after);
    } else {
      assert rows[..k] == rows;
    }
  }

  /** The page the service promises: the first matches, and where to go on if there are more. */
  function Page(rows: seq<Row>, space: Bytes, prefix: Bytes, after: Bytes, limit: nat): (seq<Row>, Bytes) {
    var all := Filter(rows, space, prefix, after);
    if |all| <= limit then (all, []) else if limit == 0 then ([], []) else (all[..limit], all[limit - 1].name.key)
  }

  function MaxBytes(a: Bytes, b: Bytes): Bytes {
    if Less(a, b) then b else a
  }

  /** Nothing before the start of the range matches. */
  lemma BelowStart(row: Row, space: Bytes, prefix: Bytes, after: Bytes)
    requires NameLess(row.name, KvName(space, MaxBytes(prefix, after)))
    ensures !Matches(row, space, prefix, after)
  {
    LessIrreflexive(space);
    if row.name.space == space {
      var key := row.name.key;
      if prefix <= key {
        PrefixBelow(prefix, key);
      }
      if Less(after, key) {
        LessAsymmetric(after, key);
      }
    }
  }

  /** Past the first row outside the namespace or the prefix, nothing matches. */
  lemma PastRange(row: Row, later: Row, space: Bytes, prefix: Bytes, after: Bytes)
    requires !NameLess(row.name, KvName(space, MaxBytes(prefix, after)))
    requires row.name.space != space || !(prefix <= row.name.key)
    requires NameLess(row.name, later.name)
    ensures !Matches(later, space, prefix, after)
  {
    if row.name.space == space && later.name.space == space {
      LessIrreflexive(space);
      StartAbovePrefix(row.name.key, prefix, after);
      PrefixBlock(prefix, row.name.key, later.name.key);
    }
  }

  lemma StartAbovePrefix(key: Bytes, prefix: Bytes, after: Bytes)
    requires !Less(key, MaxBytes(prefix, after))
    ensures !Less(key, prefix)
  {
    if Less(prefix, after) && Less(key, prefix) {
      LessTransitive(key, prefix, after);
    }
  }

  /** One page of a namespace's keys. */
  method Entries(rows: seq<Row>, space: Bytes, prefix: Bytes, after: Bytes, limit: nat)
      returns (page: seq<Head>, next: Bytes)
    requires Sorted(rows) && limit >= 1
    ensures (page, next) == (Heads(Page(rows, space, prefix, after, limit).0),
                             Page(rows, space, prefix, after, limit).1)
  {
    hide Matches, Filter, NameLess, Less, MaxBytes, Sorted;
    assert Filter(rows[..0], space, prefix, after) == [] by { FilterNothing(space, prefix, after); }
    var start := KvName(space, MaxBytes(prefix, after));
    var i := 0;
    while i < |rows| && NameLess(rows[i].name, start)
      invariant i <= |rows| && Filter(rows[..i], space, prefix, after) == []
    {
      BelowStart(rows[i], space, prefix, after);
      FilterStep(rows, i, space, prefix, after);
      i := i + 1;
    }
    ghost var low := i;
    page, next := [], [];
    while i < |rows|
      invariant low <= i <= |rows| && next == [] && |page| <= limit
      invariant page == Heads(Filter(rows[..i], space, prefix, after))
      invariant low < |rows| ==> !NameLess(rows[low].name, start)
    {
      var row := rows[i];
      AtOrAboveStart(rows, low, i, start);
      FilterStep(rows, i, space, prefix, after);
      if row.name.space != space || !(prefix <= row.name.key) {
        NoneFrom(rows, i, space, prefix, after);
        FilterPrefix(rows, i, space, prefix, after);
        return;
      }
      MatchesHere(row, space, prefix, after);
      if Less(after, row.name.key) {
        if |page| == limit {
          next := page[limit - 1].name.key;
          FilterPrefix(rows, i + 1, space, prefix, after);
          ghost var seen, all := Filter(rows[..i], space, prefix, after), Filter(rows, space, prefix, after);
          assert seen + [row] <= all && |seen| == limit;
          assert all[..limit] == seen;
          return;
        }
        page := page + [HeadOf(row)];
      }
      i := i + 1;
    }
    assert rows[..i] == rows;
  }

  lemma FilterNothing(space: Bytes, prefix: Bytes, after: Bytes)
    ensures Filter([], space, prefix, after) == []
  {
  }

  lemma MatchesHere(row: Row, space: Bytes, prefix: Bytes, after: Bytes)
    requires row.name.space == space && prefix <= row.name.key
    ensures Matches(row, space, prefix, after) <==> Less(after, row.name.key)
  {
  }

  lemma AtOrAboveStart(rows: seq<Row>, low: nat, i: nat, start: KvName)
    requires Sorted(rows) && low <= i < |rows| && !NameLess(rows[low].name, start)
    ensures !NameLess(rows[i].name, start)
  {
    if low < i && NameLess(rows[i].name, start) {
      NameLessTransitive(rows[low].name, rows[i].name, start);
    }
  }

  lemma NoneFrom(rows: seq<Row>, i: nat, space: Bytes, prefix: Bytes, after: Bytes)
    requires Sorted(rows) && i < |rows| && !NameLess(rows[i].name, KvName(space, MaxBytes(prefix, after)))
    requires rows[i].name.space != space || !(prefix <= rows[i].name.key)
    ensures forall j :: i <= j < |rows| ==> !Matches(rows[j], space, prefix, after)
  {
    forall j | i <= j < |rows| ensures !Matches(rows[j], space, prefix, after) {
      if i < j {
        PastRange(rows[i], rows[j], space, prefix, after);
      }
    }
  }

  // ----- Following the cursor -----

  lemma {:induction false} FilterSorted(rows: seq<Row>, space: Bytes, prefix: Bytes, after: Bytes)
    requires Sorted(rows)
    ensures Sorted(Filter(rows, space, prefix, after))
    ensures forall k :: 0 <= k < |Filter(rows, space, prefix, after)| ==>
              Filter(rows, space, prefix, after)[k] in rows
                  && Matches(Filter(rows, space, prefix, after)[k], space, prefix, after)
  {
    hide NameLess, Matches;
    if rows != [] {
      var init := rows[..|rows| - 1];
      FilterSorted(init, space, prefix, after);
      forall k | 0 <= k < |Filter(init, space, prefix, after)|
        ensures NameLess(Filter(init, space, prefix, after)[k].name, rows[|rows| - 1].name)
      {
        var row := Filter(init, space, prefix, after)[k];
        var j :| 0 <= j < |init| && init[j] == row;
      }
    }
  }

  /** Starting after a cursor is filtering the matches by it. */
  lemma {:induction false} FilterAgain(rows: seq<Row>, space: Bytes, prefix: Bytes, after: Bytes, cursor: Bytes)
    requires Less(after, cursor)
    ensures Filter(rows, space, prefix, cursor) == Filter(Filter(rows, space, prefix, after), space, prefix, cursor)
  {
    if rows != [] {
      var init, last := rows[..|rows| - 1], rows[|rows| - 1];
      FilterAgain(init, space, prefix, after, cursor);
      var kept := Filter(init, space, prefix, after);
      if Matches(last, space, prefix, after) {
        assert (kept + [last])[..|kept|] == kept;
      } else {
        assert kept + [] == kept;
        if Matches(last, space, prefix, cursor) {
          LessTransitive(after, cursor, last.name.key);
        }
      }
    }
  }

  /** After the cursor of a page come exactly the matches the page left out. */
  lemma NextMatches(rows: seq<Row>, space: Bytes, prefix: Bytes, after: Bytes, limit: nat)
    requires Sorted(rows) && 1 <= limit < |Filter(rows, space, prefix, after)|
    ensures var all := Filter(rows, space, prefix, after);
            Filter(rows, space, prefix, all[limit - 1].name.key) == all[limit..]
  {
    var all := Filter(rows, space, prefix, after);
    var cursor := all[limit - 1].name.key;
    FilterSorted(rows, space, prefix, after);
    FilterAgain(rows, space, prefix, after, cursor);
    forall k | 0 <= k < |all| ensures Matches(all[k], space, prefix, cursor) <==> k >= limit {
      LessIrreflexive(space);
      if k < limit - 1 {
        LessAsymmetric(all[k].name.key, cursor);
      } else if k == limit - 1 {
        LessIrreflexive(cursor);
      }
    }
    FilterTail(all, space, prefix, cursor, limit);
  }

  lemma {:induction false} FilterTail(rows: seq<Row>, space: Bytes, prefix: Bytes, after: Bytes, n: nat)
    requires n <= |rows|
    requires forall k :: 0 <= k < |rows| ==> (Matches(rows[k], space, prefix, after) <==> k >= n)
    ensures Filter(rows, space, prefix, after) == rows[n..]
  {
    hide Matches;
    if rows != [] {
      var init := rows[..|rows| - 1];
      if n < |rows| {
        FilterTail(init, space, prefix, after, n);
      } else {
        FilterTail(init, space, prefix, after, n - 1);
      }
    }
  }

  /** What a listing needs of the stored names. */
  ghost predicate Listable(rows: seq<Row>) {
    Sorted(rows) && forall k :: 0 <= k < |rows| ==> rows[k].name.key != [] && rows[k].name.space != []
  }

  /** What a reader collects who follows the cursors until there is none; that there always
      comes a page without one is part of this being a function. */
  ghost function AllPages(rows: seq<Row>, space: Bytes, prefix: Bytes, after: Bytes, limit: nat): seq<Row>
    requires Listable(rows) && limit >= 1
    decreases |Filter(rows, space, prefix, after)|
  {
    var (page, next) := Page(rows, space, prefix, after, limit);
    if next == [] then page
    else
      NextMatches(rows, space, prefix, after, limit);
      page + AllPages(rows, space, prefix, next, limit)
  }

  /** Paging is filtering: together the pages are exactly the matching keys in order, each
      once. */
  lemma {:induction false} PagingIsFiltering(rows: seq<Row>, space: Bytes, prefix: Bytes, after: Bytes, limit: nat)
    requires Listable(rows) && limit >= 1
    ensures AllPages(rows, space, prefix, after, limit) == Filter(rows, space, prefix, after)
    ensures Sorted(Filter(rows, space, prefix, after))
    decreases |Filter(rows, space, prefix, after)|
  {
    hide Sorted;
    var all := Filter(rows, space, prefix, after);
    FilterSorted(rows, space, prefix, after);
    if |all| > limit {
      NextMatches(rows, space, prefix, after, limit);
      var cursor := all[limit - 1].name.key;
      CursorNotEmpty(rows, all[limit - 1]);
      PagingIsFiltering(rows, space, prefix, cursor, limit);
      assert all[..limit] + all[limit..] == all;
    }
  }

  lemma CursorNotEmpty(rows: seq<Row>, row: Row)
    requires row in rows && forall k :: 0 <= k < |rows| ==> rows[k].name.key != []
    ensures row.name.key != []
  {
  }

  /** From the empty cursor the listing is of every key of the namespace with the prefix. */
  lemma FromTheStart(row: Row, space: Bytes, prefix: Bytes)
    requires row.name.key != []
    ensures Matches(row, space, prefix, []) <==> row.name.space == space && prefix <= row.name.key
  {
  }

  // ----- Listing namespaces -----

  datatype Group = Group(space: Bytes, count: nat)

  function Count(rows: seq<Row>, space: Bytes): nat {
    if rows == [] then 0
    else Count(rows[..|rows| - 1], space) + (if rows[|rows| - 1].name.space == space then 1 else 0)
  }

  /** Adds one row to the groups: to the last one, or as a new one. */
  function Tallied(groups: seq<Group>, row: Row): seq<Group> {
    var n := |groups|;
    if n > 0 && groups[n - 1].space == row.name.space
        then groups[n - 1 := Group(row.name.space, groups[n - 1].count + 1)]
    else groups + [Group(row.name.space, 1)]
  }

  /** The namespaces after a cursor, each with its number of keys. */
  function Tally(rows: seq<Row>, after: Bytes): seq<Group> {
    if rows == [] then []
    else
      var groups, row := Tally(rows[..|rows| - 1], after), rows[|rows| - 1];
      if Less(after, row.name.space) then Tallied(groups, row) else groups
  }

  /** The tally lists every namespace after the cursor once, in order, with its exact count. */
  ghost predicate TallyOk(rows: seq<Row>, after: Bytes, groups: seq<Group>) {
    && (forall i, j :: 0 <= i < j < |groups| ==> Less(groups[i].space, groups[j].space))
    && (forall i :: 0 <= i < |groups| ==>
          && Less(after, groups[i].space) && groups[i].count == Count(rows, groups[i].space) && groups[i].count >= 1)
    && (forall k :: 0 <= k < |rows| && Less(after, rows[k].name.space) ==> Listed(groups, rows[k].name.space))
  }

  ghost predicate Listed(groups: seq<Group>, space: Bytes) {
    exists i :: 0 <= i < |groups| && groups[i].space == space
  }

  lemma {:induction false} CountNone(rows: seq<Row>, space: Bytes)
    requires forall k :: 0 <= k < |rows| ==> rows[k].name.space != space
    ensures Count(rows, space) == 0
  {
    if rows != [] {
      CountNone(rows[..|rows| - 1], space);
    }
  }

  lemma {:induction false} TallyIs(rows: seq<Row>, after: Bytes)
    requires Sorted(rows)
    ensures TallyOk(rows, after, Tally(rows, after))
    ensures forall i :: 0 <= i < |Tally(rows, after)| ==>
        exists k :: 0 <= k < |rows| && rows[k].name.space == Tally(rows, after)[i].space
  {
    if rows != [] {
      var init, row := rows[..|rows| - 1], rows[|rows| - 1];
      TallyIs(init, after);
      var groups := Tally(init, after);
      LastSpace(init, row, groups);
      if Less(after, row.name.space) {
        TallyGrows(init, row, after, groups);
      } else {
        TallySame(init, row, after, groups);
      }
      assert rows == init + [row];
    }
  }

  /** No group so far is past the new row's namespace. */
  lemma LastSpace(init: seq<Row>, row: Row, groups: seq<Group>)
    requires Sorted(init + [row])
    requires forall i :: 0 <= i < |groups| ==> exists k :: 0 <= k < |init| && init[k].name.space == groups[i].space
    ensures forall i :: 0 <= i < |groups| ==> groups[i].space == row.name.space || Less(groups[i].space, row.name.space)
  {
    forall i | 0 <= i < |groups| ensures groups[i].space == row.name.space || Less(groups[i].space, row.name.space) {
      var k :| 0 <= k < |init| && init[k].name.space == groups[i].space;
      assert NameLess((init + [row])[k].name, (init + [row])[|init|].name);
    }
  }

  lemma TallySame(init: seq<Row>, row: Row, after: Bytes, groups: seq<Group>)
    requires TallyOk(init, after, groups) && !Less(after, row.name.space)
    ensures TallyOk(init + [row], after, groups)
  {
    var rows := init + [row];
    assert rows[..|rows| - 1] == init;
    forall k | 0 <= k < |rows| && Less(after, rows[k].name.space) ensures Listed(groups, rows[k].name.space) {
      assert rows[k] == init[k];
    }
  }

  /** Among ascending groups that do not pass a namespace, only the last can be it. */
  lemma OnlyLast(groups: seq<Group>, i: nat, space: Bytes)
    requires forall i, j :: 0 <= i < j < |groups| ==> Less(groups[i].space, groups[j].space)
    requires forall i :: 0 <= i < |groups| ==> groups[i].space == space || Less(groups[i].space, space)
    requires i < |groups| && groups[i].space == space
    ensures i == |groups| - 1
  {
    if i < |groups| - 1 {
      LessAsymmetric(groups[i].space, groups[|groups| - 1].space);
    }
  }

  lemma FreshSpace(init: seq<Row>, row: Row, after: Bytes, groups: seq<Group>)
    requires TallyOk(init, after, groups) && Less(after, row.name.space)
    requires forall i :: 0 <= i < |groups| ==>
        groups[i].space == row.name.space || Less(groups[i].space, row.name.space)
    requires groups == [] || groups[|groups| - 1].space != row.name.space
    ensures Count(init, row.name.space) == 0
    ensures forall i :: 0 <= i < |groups| ==> groups[i].space != row.name.space
  {
    forall i | 0 <= i < |groups| ensures groups[i].space != row.name.space {
      if groups[i].space == row.name.space {
        OnlyLast(groups, i, row.name.space);
      }
    }
    NotListed(groups, row.name.space);
    hide Listed;
    CountNone(init, row.name.space);
  }

  lemma NotListed(groups: seq<Group>, space: Bytes)
    requires forall i :: 0 <= i < |groups| ==> groups[i].space != space
    ensures !Listed(groups, space)
  {
  }

  lemma TallyGrows(init: seq<Row>, row: Row, after: Bytes, groups: seq<Group>)
    requires TallyOk(init, after, groups) && Less(after, row.name.space)
    requires forall i :: 0 <= i < |groups| ==>
        groups[i].space == row.name.space || Less(groups[i].space, row.name.space)
    ensures TallyOk(init + [row], after, Tallied(groups, row))
  {
    hide Less, Listed;
    var rows, n := init + [row], |groups|;
    assert rows[..|rows| - 1] == init;
    var grown := Tallied(groups, row);
    if n > 0 && groups[n - 1].space == row.name.space {
      forall i | 0 <= i < n - 1 ensures grown[i] == groups[i] && groups[i].space != row.name.space {
        LessAsymmetric(groups[i].space, groups[n - 1].space);
      }
    } else {
      FreshSpace(init, row, after, groups);
    }
    forall k | 0 <= k < |rows| && Less(after, rows[k].name.space) ensures Listed(grown, rows[k].name.space) {
      StillListed(init, row, groups, k);
    }
  }

  lemma StillListed(init: seq<Row>, row: Row, groups: seq<Group>, k: nat)
    requires k < |init + [row]| && (k < |init| ==> Listed(groups, init[k].name.space))
    ensures Listed(Tallied(groups, row), (init + [row])[k].name.space)
  {
    var grown := Tallied(groups, row);
    if k < |init| {
      var i :| 0 <= i < |groups| && groups[i].space == init[k].name.space;
      assert grown[i].space == groups[i].space;
    } else {
      assert grown[|grown| - 1].space == row.name.space;
    }
  }

  /** One page of namespaces, and where to go on. */
  function SpacePage(rows: seq<Row>, after: Bytes, limit: nat): (seq<Group>, Bytes) {
    var all := Tally(rows, after);
    if |all| <= limit then (all, []) else if limit == 0 then ([], []) else (all[..limit], all[limit - 1].space)
  }

  lemma TallyStep(rows: seq<Row>, k: nat, after: Bytes)
    requires k < |rows|
    ensures Tally(rows[..k + 1], after)
         == if Less(after, rows[k].name.space) then Tallied(Tally(rows[..k], after), rows[k])
             else Tally(rows[..k], after)
  {
    assert rows[..k + 1][..k] == rows[..k];
  }

  /** Groups before the last are settled. */
  lemma {:induction false} TallySettled(rows: seq<Row>, k: nat, after: Bytes, n: nat)
    requires k <= |rows| && n < |Tally(rows[..k], after)|
    ensures n < |Tally(rows, after)| && Tally(rows, after)[..n] == Tally(rows[..k], after)[..n]
    decreases |rows| - k
  {
    if k < |rows| {
      TallyStep(rows, k, after);
      TallySettled(rows, k + 1, after, n);
    } else {
      assert rows[..k] == rows;
    }
  }

  /** The range starts at the cursor's namespace. */
  lemma FromCursor(row: Row, after: Bytes)
    ensures NameLess(row.name, KvName(after, [])) ==> !Less(after, row.name.space)
    ensures !NameLess(row.name, KvName(after, [])) && row.name.space != after ==> Less(after, row.name.space)
    ensures !Less(after, after)
  {
    LessIrreflexive(after);
    LessTotal(row.name.space, after);
    if Less(row.name.space, after) {
      LessAsymmetric(row.name.space, after);
    }
  }

  /** One page of namespaces; refused only if a count leaves 64 bits. */
  method Namespaces(rows: seq<Row>, after: Bytes, limit: nat) returns (r: Option<(seq<Group>, Bytes)>)
    requires Sorted(rows) && limit >= 1
    ensures r.Some? ==> r.value == SpacePage(rows, after, limit)
    ensures |rows| <= U64_MAX ==> r.Some?
  {
    hide Tally, Less, NameLess, Sorted;
    var start := KvName(after, []);
    var i := 0;
    assert Tally(rows[..0], after) == [] by { TallyNothing(after); }
    while i < |rows| && NameLess(rows[i].name, start)
      invariant i <= |rows| && Tally(rows[..i], after) == []
    {
      FromCursor(rows[i], after);
      TallyStep(rows, i, after);
      i := i + 1;
    }
    ghost var low := i;
    var page: seq<Group>, next: Bytes := [], [];
    while i < |rows|
      invariant low <= i <= |rows| && next == [] && |page| <= limit
      invariant page == Tally(rows[..i], after)
      invariant low < |rows| ==> !NameLess(rows[low].name, start)
    {
      var space := rows[i].name.space;
      AtOrAboveStart(rows, low, i, start);
      FromCursor(rows[i], after);
      TallyStep(rows, i, after);
      if space != after {
        if page == [] || page[|page| - 1].space != space {
          if |page| == limit {
            next := page[limit - 1].space;
            TallySettled(rows, i + 1, after, limit);
            return Some((page, next));
          }
          page := page + [Group(space, 0)];
        }
        var last := |page| - 1;
        if page[last].count + 1 > U64_MAX {
          CountFits(rows, i, after);
          return None;
        }
        page := page[last := Group(space, page[last].count + 1)];
      }
      i := i + 1;
    }
    assert rows[..i] == rows;
    r := Some((page, next));
  }

  lemma TallyNothing(after: Bytes)
    ensures Tally([], after) == []
  {
  }

  lemma CountFits(rows: seq<Row>, i: nat, after: Bytes)
    requires Sorted(rows) && i < |rows|
    ensures forall k :: 0 <= k < |Tally(rows[..i], after)| ==> Tally(rows[..i], after)[k].count < |rows|
  {
    TallyIs(rows[..i], after);
    forall k | 0 <= k < |Tally(rows[..i], after)| ensures Tally(rows[..i], after)[k].count < |rows| {
      CountBound(rows[..i], Tally(rows[..i], after)[k].space);
    }
  }

  lemma {:induction false} CountBound(rows: seq<Row>, space: Bytes)
    ensures Count(rows, space) <= |rows|
  {
    if rows != [] {
      CountBound(rows[..|rows| - 1], space);
    }
  }

  // ----- Following the namespace cursor -----

  function Above(groups: seq<Group>, cursor: Bytes): (r: seq<Group>)
    ensures |r| <= |groups|
  {
    if groups == [] then []
    else
      Above(groups[..|groups| - 1], cursor)
      + (if Less(cursor, groups[|groups| - 1].space) then [groups[|groups| - 1]] else [])
  }

  lemma {:induction false} AboveNone(groups: seq<Group>, cursor: Bytes)
    requires forall i :: 0 <= i < |groups| ==> !Less(cursor, groups[i].space)
    ensures Above(groups, cursor) == []
  {
    if groups != [] {
      AboveNone(groups[..|groups| - 1], cursor);
    }
  }

  lemma {:induction false} AboveTail(groups: seq<Group>, cursor: Bytes, n: nat)
    requires n <= |groups| && forall i :: 0 <= i < |groups| ==> (Less(cursor, groups[i].space) <==> i >= n)
    ensures Above(groups, cursor) == groups[n..]
  {
    hide Less;
    if groups != [] {
      AboveTail(groups[..|groups| - 1], cursor, if n < |groups| then n else n - 1);
    }
  }

  /** Adding a row past the cursor commutes with cutting at the cursor. */
  lemma AboveTallied(groups: seq<Group>, row: Row, cursor: Bytes)
    requires forall i, j :: 0 <= i < j < |groups| ==> Less(groups[i].space, groups[j].space)
    requires forall i :: 0 <= i < |groups| ==>
        groups[i].space == row.name.space || Less(groups[i].space, row.name.space)
    requires Less(cursor, row.name.space)
    ensures Above(Tallied(groups, row), cursor) == Tallied(Above(groups, cursor), row)
  {
    hide Less;
    var n, grown := |groups|, Tallied(groups, row);
    if n > 0 {
      var init, last := groups[..n - 1], groups[n - 1];
      if last.space == row.name.space {
        assert grown[..n - 1] == init;
        var above := Above(init, cursor);
        assert Above(groups, cursor) == above + [last];
        assert (above + [last])[|above| := Group(row.name.space, last.count + 1)]
            == above + [Group(row.name.space, last.count + 1)];
      } else {
        assert grown[..n] == groups;
        AboveEnds(groups, cursor, row.name.space);
      }
    }
  }

  lemma AboveEnds(groups: seq<Group>, cursor: Bytes, space: Bytes)
    requires forall i, j :: 0 <= i < j < |groups| ==> Less(groups[i].space, groups[j].space)
    requires groups != [] && groups[|groups| - 1].space != space
    ensures var above := Above(groups, cursor); above == [] || above[|above| - 1].space != space
  {
    if !Less(cursor, groups[|groups| - 1].space) {
      forall i | 0 <= i < |groups| ensures !Less(cursor, groups[i].space) {
        if i < |groups| - 1 && Less(cursor, groups[i].space) {
          LessTransitive(cursor, groups[i].space, groups[|groups| - 1].space);
        }
      }
      AboveNone(groups, cursor);
    }
  }

  /** A row between the cursors shows up in neither tally past the later one. */
  lemma BelowCursor(groups: seq<Group>, row: Row, cursor: Bytes)
    requires forall i :: 0 <= i < |groups| ==>
        groups[i].space == row.name.space || Less(groups[i].space, row.name.space)
    requires !Less(cursor, row.name.space)
    ensures Above(groups, cursor) == [] == Above(Tallied(groups, row), cursor)
  {
    forall i | 0 <= i < |groups| ensures !Less(cursor, groups[i].space) {
      if Less(cursor, groups[i].space) && Less(groups[i].space, row.name.space) {
        LessTransitive(cursor, groups[i].space, row.name.space);
      }
    }
    AboveNone(groups, cursor);
    AboveNone(Tallied(groups, row), cursor);
  }

  lemma {:induction false} TallyAgain(rows: seq<Row>, after: Bytes, cursor: Bytes)
    requires Sorted(rows) && Less(after, cursor)
    ensures Tally(rows, cursor) == Above(Tally(rows, after), cursor)
  {
    hide Less, NameLess, Above, Tallied;
    if rows != [] {
      var init, row := rows[..|rows| - 1], rows[|rows| - 1];
      var groups := Tally(init, after);
      assert init + [row] == rows;
      TallyAgain(init, after, cursor);
      TallyShape(init, row, after);
      if Less(cursor, row.name.space) {
        LessTransitive(after, cursor, row.name.space);
        AboveTallied(groups, row, cursor);
      } else {
        BelowCursor(groups, row, cursor);
      }
    } else {
      AboveNone([], cursor);
    }
  }

  lemma TallyShape(init: seq<Row>, row: Row, after: Bytes)
    requires Sorted(init + [row]) && Sorted(init)
    ensures var groups := Tally(init, after);
            && (forall i, j :: 0 <= i < j < |groups| ==> Less(groups[i].space, groups[j].space))
            && (forall i :: 0 <= i < |groups| ==>
                groups[i].space == row.name.space || Less(groups[i].space, row.name.space))
  {
    TallyIs(init, after);
    LastSpace(init, row, Tally(init, after));
  }

  lemma AboveGroup(groups: seq<Group>, limit: nat)
    requires forall i, j :: 0 <= i < j < |groups| ==> Less(groups[i].space, groups[j].space)
    requires 1 <= limit <= |groups|
    ensures Above(groups, groups[limit - 1].space) == groups[limit..]
  {
    hide Less, Above;
    var cursor := groups[limit - 1].space;
    forall i | 0 <= i < |groups| ensures Less(cursor, groups[i].space) <==> i >= limit {
      LessIrreflexive(cursor);
      if i < limit - 1 {
        LessAsymmetric(groups[i].space, cursor);
      }
    }
    AboveTail(groups, cursor, limit);
  }

  lemma NextSpaces(rows: seq<Row>, after: Bytes, limit: nat)
    requires Sorted(rows) && 1 <= limit < |Tally(rows, after)|
    ensures Tally(rows, Tally(rows, after)[limit - 1].space) == Tally(rows, after)[limit..]
  {
    hide Less, Sorted, Above;
    TallyIs(rows, after);
    TallyAgain(rows, after, Tally(rows, after)[limit - 1].space);
    AboveGroup(Tally(rows, after), limit);
  }

  /** What a reader of namespaces collects who follows the cursors. */
  ghost function AllSpaces(rows: seq<Row>, after: Bytes, limit: nat): seq<Group>
    requires Listable(rows) && limit >= 1
    decreases |Tally(rows, after)|
  {
    var (page, next) := SpacePage(rows, after, limit);
    if next == [] then page
    else
      NextSpaces(rows, after, limit);
      page + AllSpaces(rows, next, limit)
  }

  /** Together the pages list every namespace after the cursor once, in order, each with
      its exact number of keys. */
  lemma {:induction false} SpacePagingIsTallying(rows: seq<Row>, after: Bytes, limit: nat)
    requires Listable(rows) && limit >= 1
    ensures AllSpaces(rows, after, limit) == Tally(rows, after)
    ensures TallyOk(rows, after, Tally(rows, after))
    decreases |Tally(rows, after)|
  {
    hide Sorted, TallyOk;
    TallyIs(rows, after);
    var all := Tally(rows, after);
    if |all| > limit {
      NextSpaces(rows, after, limit);
      SpaceNotEmpty(rows, after, all, limit - 1);
      SpacePagingIsTallying(rows, all[limit - 1].space, limit);
      assert all[..limit] + all[limit..] == all;
    }
  }

  lemma SpaceNotEmpty(rows: seq<Row>, after: Bytes, groups: seq<Group>, i: nat)
    requires TallyOk(rows, after, groups) && i < |groups|
    ensures groups[i].space != []
  {
  }

  // ----- Rows of a state -----

  /** Every finite map has its ordered rows. */
  lemma RowsExist(entries: map<KvName, KvRecord>) returns (rows: seq<Row>)
    ensures Lists(rows, entries)
    decreases |entries|
  {
    hide NameLess;
    if |entries| == 0 {
      rows := [];
    } else {
      var name := GreatestName(entries.Keys);
      var rest := entries - {name};
      assert entries.Keys == rest.Keys + {name};
      var below := RowsExist(rest);
      rows := below + [Row(name, entries[name])];
      OneMoreRow(entries, name, below);
    }
  }

  lemma OneMoreRow(entries: map<KvName, KvRecord>, name: KvName, below: seq<Row>)
    requires name in entries && Lists(below, entries - {name})
    requires forall n :: n in entries && n != name ==> NameLess(n, name)
    ensures Lists(below + [Row(name, entries[name])], entries)
  {
    hide NameLess;
    var rows := below + [Row(name, entries[name])];
    forall n | n in entries ensures exists k :: 0 <= k < |rows| && rows[k].name == n {
      if n == name {
        assert rows[|below|].name == n;
      } else {
        assert n in entries - {name};
        var k :| 0 <= k < |below| && below[k].name == n;
        assert rows[k].name == n;
      }
    }
  }

  lemma GreatestName(names: set<KvName>) returns (name: KvName)
    requires names != {}
    ensures name in names && forall n :: n in names && n != name ==> NameLess(n, name)
    decreases |names|
  {
    hide NameLess;
    var first :| first in names;
    var rest := names - {first};
    assert forall n :: n in names ==> n == first || n in rest;
    if rest == {} {
      return first;
    }
    var other := GreatestName(rest);
    NameLessTotal(first, other);
    if NameLess(first, other) {
      return other;
    }
    forall n | n in rest && n != other ensures NameLess(n, first) {
      NameLessTransitive(n, other, first);
    }
    return first;
  }

  /** The rows of any reachable state can be listed. */
  lemma StateListable(state: KvState, rows: seq<Row>)
    requires Valid(state) && Lists(rows, state.entries)
    ensures Listable(rows)
  {
    hide Sorted;
    forall k | 0 <= k < |rows| ensures rows[k].name.key != [] && rows[k].name.space != [] {
      assert rows[k].name in state.entries && ValidateName(rows[k].name).None?;
    }
  }

  // ----- Whole listings of a state -----

  lemma {:induction false} FilterHas(rows: seq<Row>, space: Bytes, prefix: Bytes, after: Bytes, row: Row)
    requires row in rows && Matches(row, space, prefix, after)
    ensures row in Filter(rows, space, prefix, after)
  {
    hide Matches;
    if row != rows[|rows| - 1] {
      FilterHas(rows[..|rows| - 1], space, prefix, after, row);
    }
  }

  /** The entries of a namespace whose keys have the prefix. */
  ghost predicate Wanted(entries: map<KvName, KvRecord>, space: Bytes, prefix: Bytes, row: Row) {
    row.name in entries && row.record == entries[row.name] && row.name.space == space && prefix <= row.name.key
  }

  /** What a reader is told of one of them. */
  ghost predicate Shown(entries: map<KvName, KvRecord>, space: Bytes, prefix: Bytes, h: Head) {
    && h.name in entries && h.name.space == space && prefix <= h.name.key
    && h.etag == entries[h.name].etag && h.generation == entries[h.name].generation
    && h.size == |entries[h.name].body|
  }

  lemma HeadsShow(entries: map<KvName, KvRecord>, space: Bytes, prefix: Bytes, rows: seq<Row>)
    requires forall row :: row in rows <==> Wanted(entries, space, prefix, row)
    ensures forall h :: h in Heads(rows) <==> Shown(entries, space, prefix, h)
  {
    forall h | Shown(entries, space, prefix, h) ensures h in Heads(rows) {
      var row := Row(h.name, entries[h.name]);
      assert row in rows;
      var k :| 0 <= k < |rows| && rows[k] == row;
      assert Heads(rows)[k] == h;
    }
    forall h | h in Heads(rows) ensures Shown(entries, space, prefix, h) {
      var k :| 0 <= k < |rows| && Heads(rows)[k] == h;
      assert rows[k] in rows;
    }
  }

  /** Following the cursors from the empty one, with any limit the service accepts, a reader of
      a state gets exactly the entries of the namespace whose keys have the prefix, in order,
      each once, with the ETag, the generation and the size that each has. */
  lemma StatePages(state: KvState, space: Bytes, prefix: Bytes, limit: nat) returns (rows: seq<Row>, all: seq<Row>)
    requires Valid(state) && PageLimit(limit).Some?
    ensures Lists(rows, state.entries) && Listable(rows)
    ensures all == AllPages(rows, space, prefix, [], PageLimit(limit).value)
    ensures Sorted(all) && forall row :: row in all <==> Wanted(state.entries, space, prefix, row)
    ensures forall h :: h in Heads(all) <==> Shown(state.entries, space, prefix, h)
  {
    hide Valid, AllPages, Sorted, Matches, Filter;
    rows := RowsExist(state.entries);
    StateListable(state, rows);
    all := AllPages(rows, space, prefix, [], PageLimit(limit).value);
    PagingIsFiltering(rows, space, prefix, [], PageLimit(limit).value);
    FilterSorted(rows, space, prefix, []);
    forall row ensures row in all <==> Wanted(state.entries, space, prefix, row) {
      if row in rows {
        FromTheStart(row, space, prefix);
        if Matches(row, space, prefix, []) {
          FilterHas(rows, space, prefix, [], row);
        }
      }
    }
    HeadsShow(state.entries, space, prefix, all);
  }

  ghost function NamesIn(rows: seq<Row>, space: Bytes): set<KvName> {
    set row | row in rows && row.name.space == space :: row.name
  }

  lemma {:induction false} CountIsSize(rows: seq<Row>, space: Bytes)
    requires Sorted(rows)
    ensures Count(rows, space) == |NamesIn(rows, space)|
  {
    hide NameLess, NamesIn;
    if rows != [] {
      var init, last := rows[..|rows| - 1], rows[|rows| - 1];
      CountIsSize(init, space);
      assert rows == init + [last];
      NamesGrow(init, last, space);
    } else {
      NoNames(space);
    }
  }

  lemma NoNames(space: Bytes)
    ensures NamesIn([], space) == {}
  {
  }

  lemma NamesGrow(init: seq<Row>, last: Row, space: Bytes)
    requires Sorted(init + [last])
    ensures last.name !in NamesIn(init, space)
    ensures NamesIn(init + [last], space)
        == NamesIn(init, space) + (if last.name.space == space then {last.name} else {})
  {
    hide NameLess;
    var rows := init + [last];
    assert rows[|init|] == last;
    if last.name in NamesIn(init, space) {
      var row :| row in init && row.name == last.name;
      var k :| 0 <= k < |init| && init[k] == row;
      assert NameLess(rows[k].name, rows[|init|].name);
      NotBelowItself(last.name);
    }
  }

  lemma NotBelowItself(name: KvName)
    ensures !NameLess(name, name)
  {
    LessIrreflexive(name.space);
    LessIrreflexive(name.key);
  }

  /** The number of keys that a state has in a namespace. */
  ghost function KeysIn(entries: map<KvName, KvRecord>, space: Bytes): nat {
    |set name | name in entries && name.space == space|
  }

  lemma CountIsKeys(rows: seq<Row>, entries: map<KvName, KvRecord>, space: Bytes)
    requires Lists(rows, entries)
    ensures Count(rows, space) == KeysIn(entries, space)
  {
    hide NameLess;
    CountIsSize(rows, space);
    var names := set name | name in entries && name.space == space;
    forall name | name in names ensures name in NamesIn(rows, space) {
      var k :| 0 <= k < |rows| && rows[k].name == name;
      assert rows[k] in rows;
    }
    assert NamesIn(rows, space) == names;
  }

  /** Following the namespace cursors from the empty one, a reader of a state gets exactly the
      namespaces that have keys, in order, each once, with its number of keys. */
  lemma StateSpaces(state: KvState, limit: nat) returns (rows: seq<Row>, all: seq<Group>)
    requires Valid(state) && PageLimit(limit).Some?
    ensures Lists(rows, state.entries) && Listable(rows) && all == AllSpaces(rows, [], PageLimit(limit).value)
    ensures forall i, j :: 0 <= i < j < |all| ==> Less(all[i].space, all[j].space)
    ensures forall space, count ::
              Group(space, count) in all <==> count == KeysIn(state.entries, space) && count > 0
  {
    hide Valid, AllSpaces, Tally, NameLess, KeysIn, Count;
    rows := RowsExist(state.entries);
    StateListable(state, rows);
    all := AllSpaces(rows, [], PageLimit(limit).value);
    SpacePagingIsTallying(rows, [], PageLimit(limit).value);
    forall space, count: nat ensures Group(space, count) in all <==>
        count == KeysIn(state.entries, space) && count > 0 {
      CountIsKeys(rows, state.entries, space);
      if Group(space, count) in all {
        var i :| 0 <= i < |all| && all[i] == Group(space, count);
      } else if count == Count(rows, space) && count > 0 {
        SpaceListed(rows, all, space);
      }
    }
  }

  lemma SpaceListed(rows: seq<Row>, groups: seq<Group>, space: Bytes)
    requires TallyOk(rows, [], groups) && Count(rows, space) > 0
    requires forall k :: 0 <= k < |rows| ==> rows[k].name.space != []
    ensures Group(space, Count(rows, space)) in groups
  {
    if forall k :: 0 <= k < |rows| ==> rows[k].name.space != space {
      CountNone(rows, space);
    }
    var k :| 0 <= k < |rows| && rows[k].name.space == space;
    assert Less([], rows[k].name.space);
    var i :| 0 <= i < |groups| && groups[i].space == space;
    assert groups[i] == Group(space, Count(rows, space));
  }
}
