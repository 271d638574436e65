/** JSON payloads up to the order of object members, and their canonical form. */
module CanonicalJson {

  datatype Json =
    | Null
    | Bool(b: bool)
    | Number(numeral: string)
    | Str(s: string)
    | Array(items: seq<Json>)
    | Object(members: seq<Member>)

  datatype Member = Member(key: string, value: Json)

  // ---- the order of keys ------------------------------------------------------------------

  /** Lexicographic by scalar value, which is also the byte order of UTF-8. */
  predicate KeyLess(a: string, b: string) {
    if b == [] then false
    else if a == [] then true
    else a[0] < b[0] || (a[0] == b[0] && KeyLess(a[1..], b[1..]))
  }

  lemma {:induction false} KeyLessTotal(a: string, b: string)
    ensures a == b || KeyLess(a, b) || KeyLess(b, a)
  {
    if a != [] && b != [] && a[0] == b[0] {
      KeyLessTotal(a[1..], b[1..]);
      assert a == [a[0]] + a[1..] && b == [b[0]] + b[1..];
    }
  }

  lemma {:induction false} KeyLessStrict(a: string, b: string)
    ensures !(KeyLess(a, b) && KeyLess(b, a)) && !KeyLess(a, a)
  {
    if a != [] {
      KeyLessStrict(a[1..], if b != [] then b[1..] else []);
    }
  }

  lemma {:induction false} KeyLessTransitive(a: string, b: string, c: string)
    requires KeyLess(a, b) && KeyLess(b, c)
    ensures KeyLess(a, c)
  {
    if a != [] && a[0] == b[0] && b[0] == c[0] {
      KeyLessTransitive(a[1..], b[1..], c[1..]);
    }
  }

  // ---- canonical form ------------------------------------------------------------------------

  predicate DistinctKeys(ms: seq<Member>) {
    forall i, j :: 0 <= i < j < |ms| ==> ms[i].key != ms[j].key
  }

  /** As a parsed document always is: no object repeats a key. */
  predicate WellFormed(v: Json) {
    match v
    case Array(items) => forall i :: 0 <= i < |items| ==> WellFormed(items[i])
    case Object(members) => DistinctKeys(members) && forall i :: 0 <= i < |members| ==> WellFormed(members[i].value)
    case _ => true
  }

  function Insert(m: Member, sorted: seq<Member>): seq<Member> {
    if sorted == [] || KeyLess(m.key, sorted[0].key) then [m] + sorted else [sorted[0]] + Insert(m, sorted[1..])
  }

  function SortMembers(ms: seq<Member>): seq<Member> {
    if ms == [] then [] else Insert(ms[|ms| - 1], SortMembers(ms[..|ms| - 1]))
  }

  function Canonicalize(v: Json): Json {
    match v
    case Array(items) => Array(CanonicalItems(items))
    case Object(members) => Object(SortMembers(CanonicalMembers(members)))
    case _ => v
  }

  function CanonicalItems(items: seq<Json>): (r: seq<Json>)
    ensures |r| == |items| && forall i :: 0 <= i < |items| ==> r[i] == Canonicalize(items[i])
  {
    if items == [] then []
    else
      assert items == items[..|items| - 1] + [items[|items| - 1]];
      CanonicalItems(items[..|items| - 1]) + [Canonicalize(items[|items| - 1])]
  }

  function CanonicalMembers(ms: seq<Member>): (r: seq<Member>)
    ensures |r| == |ms| && forall i :: 0 <= i < |ms| ==> r[i] == Member(ms[i].key, Canonicalize(ms[i].value))
  {
    if ms == [] then []
    else
      var last := ms[|ms| - 1];
      CanonicalMembers(ms[..|ms| - 1]) + [Member(last.key, Canonicalize(last.value))]
  }

  /** The same document: arrays agree in order, objects member by member under each key, at every depth. */
  predicate Same(a: Json, b: Json)
    decreases a
  {
    match (a, b)
    case (Array(x), Array(y)) => |x| == |y| && forall i :: 0 <= i < |x| ==> Same(x[i], y[i])
    case (Object(x), Object(y)) =>
      |x| == |y| && forall i :: 0 <= i < |x| ==> PairedIn(x[i], y)
    case _ => a == b
  }

  /** `ms` has a member with the key of `m` and the same document under it. */
  predicate PairedIn(m: Member, ms: seq<Member>)
    decreases m
  {
    exists j :: 0 <= j < |ms| && SameMember(m, ms[j])
  }

  predicate SameMember(m: Member, n: Member)
    decreases m, 0
  {
    m.key == n.key && Same(m.value, n.value)
  }

  // ---- sorting decides nothing but the order -----------------------------------------------------

  predicate Ascending(ms: seq<Member>) {
    forall i, j :: 0 <= i < j < |ms| ==> KeyLess(ms[i].key, ms[j].key)
  }

  lemma {:induction false} InsertSorts(m: Member, sorted: seq<Member>)
    requires Ascending(sorted) && forall x :: x in sorted ==> x.key != m.key
    ensures Ascending(Insert(m, sorted)) && forall x :: x in Insert(m, sorted) <==> x == m || x in sorted
  {
    if sorted == [] {
    } else if KeyLess(m.key, sorted[0].key) {
      forall j | 0 <= j < |sorted|
        ensures KeyLess(m.key, sorted[j].key)
      {
        if j > 0 {
          KeyLessTransitive(m.key, sorted[0].key, sorted[j].key);
        }
      }
    } else {
      var tail := Insert(m, sorted[1..]);
      InsertSorts(m, sorted[1..]);
      KeyLessTotal(m.key, sorted[0].key);
      assert sorted == [sorted[0]] + sorted[1..];
      forall j | 0 <= j < |tail|
        ensures KeyLess(sorted[0].key, tail[j].key)
      {
        assert tail[j] in tail;
      }
    }
  }

  lemma {:induction false} SortMembersSorts(ms: seq<Member>)
    requires DistinctKeys(ms)
    ensures Ascending(SortMembers(ms)) && forall x :: x in SortMembers(ms) <==> x in ms
  {
    if ms != [] {
      var n := |ms| - 1;
      SortMembersSorts(ms[..n]);
      assert ms == ms[..n] + [ms[n]];
      InsertSorts(ms[n], SortMembers(ms[..n]));
    }
  }

  lemma {:induction false} DistinctCardinality(ms: seq<Member>, s: set<Member>)
    requires DistinctKeys(ms) && forall x :: x in s <==> x in ms
    ensures |s| == |ms|
  {
    if ms != [] {
      var n := |ms| - 1;
      assert ms == ms[..n] + [ms[n]];
      DistinctCardinality(ms[..n], s - {ms[n]});
    } else {
      assert s == {};
    }
  }

  lemma AscendingIsDistinct(a: seq<Member>)
    requires Ascending(a)
    ensures DistinctKeys(a)
  {
    forall i, j | 0 <= i < j < |a|
      ensures a[i].key != a[j].key
    {
      KeyLessStrict(a[i].key, a[j].key);
    }
  }

  lemma {:induction false} AscendingIsUnique(a: seq<Member>, b: seq<Member>)
    requires Ascending(a) && Ascending(b) && forall x :: x in a <==> x in b
    ensures a == b
  {
    AscendingIsDistinct(a);
    AscendingIsDistinct(b);
    DistinctCardinality(a, set x | x in a);
    DistinctCardinality(b, set x | x in a);
    if a != [] {
      assert a[0] in b && b[0] in a;
      HeadsAgree(a, b);
      forall x
        ensures x in a[1..] <==> x in b[1..]
      {
        TailMembership(a, x);
        TailMembership(b, x);
      }
      AscendingIsUnique(a[1..], b[1..]);
      assert a == [a[0]] + a[1..] && b == [b[0]] + b[1..];
    }
  }

  lemma HeadsAgree(a: seq<Member>, b: seq<Member>)
    requires Ascending(a) && Ascending(b) && a != [] && b != [] && a[0] in b && b[0] in a
    ensures a[0] == b[0]
  {
    KeyLessStrict(a[0].key, b[0].key);
  }

  lemma TailMembership(a: seq<Member>, x: Member)
    requires Ascending(a) && a != []
    ensures x in a[1..] <==> x in a && x != a[0]
  {
    KeyLessStrict(a[0].key, a[0].key);
  }

  lemma {:induction false} SortKeepsLength(ms: seq<Member>)
    ensures |SortMembers(ms)| == |ms|
  {
    if ms != [] {
      SortKeepsLength(ms[..|ms| - 1]);
      InsertAddsOne(ms[|ms| - 1], SortMembers(ms[..|ms| - 1]));
    }
  }

  lemma {:induction false} InsertAddsOne(m: Member, sorted: seq<Member>)
    ensures |Insert(m, sorted)| == |sorted| + 1
  {
    if sorted != [] {
      InsertAddsOne(m, sorted[1..]);
    }
  }

  /** Among equally many members with distinct keys, containment one way is containment both ways. */
  lemma SameMembers(a: seq<Member>, b: seq<Member>)
    requires DistinctKeys(a) && DistinctKeys(b) && |a| == |b| && forall x :: x in a ==> x in b
    ensures forall x :: x in a <==> x in b
  {
    var sa, sb := set x | x in a, set x | x in b;
    DistinctCardinality(a, sa);
    DistinctCardinality(b, sb);
    assert |sb - sa| == |sb| - |sa * sb| && sa * sb == sa;
    assert sb - sa == {};
    forall x | x in b
      ensures x in a
    {
      assert x in sb && x !in sb - sa;
    }
  }

  // ---- equal canonical forms, equal documents ---------------------------------------------------------

  lemma ObjectsAgree(x: seq<Member>, y: seq<Member>)
    requires DistinctKeys(x) && DistinctKeys(y)
    ensures SortMembers(x) == SortMembers(y) <==> |x| == |y| && forall m :: m in x ==> m in y
  {
    SortMembersSorts(x);
    SortMembersSorts(y);
    SortKeepsLength(x);
    SortKeepsLength(y);
    if |x| == |y| && forall m :: m in x ==> m in y {
      SameMembers(x, y);
      AscendingIsUnique(SortMembers(x), SortMembers(y));
    }
  }

  /** Two documents have the same canonical form exactly when they differ at most in the order of object members. */
  lemma {:induction false} CanonicalIffSame(a: Json, b: Json)
    requires WellFormed(a) && WellFormed(b)
    ensures Canonicalize(a) == Canonicalize(b) <==> Same(a, b)
    decreases a, 1
  {
    if a.Array? && b.Array? {
      ArraysAgree(a.items, b.items);
    } else if a.Object? && b.Object? {
      ObjectsAgree(CanonicalMembers(a.members), CanonicalMembers(b.members));
      MembersAgree(a.members, b.members);
    }
  }

  lemma {:induction false} ArraysAgree(x: seq<Json>, y: seq<Json>)
    requires WellFormed(Array(x)) && WellFormed(Array(y))
    ensures CanonicalItems(x) == CanonicalItems(y) <==> |x| == |y| && forall i :: 0 <= i < |x| ==> Same(x[i], y[i])
    decreases x, 0
  {
    if |x| == |y| {
      var cx, cy := CanonicalItems(x), CanonicalItems(y);
      forall i | 0 <= i < |x|
        ensures cx[i] == cy[i] <==> Same(x[i], y[i])
      {
        CanonicalIffSame(x[i], y[i]);
      }
    }
  }

  /** Containment of canonical members is agreement member by member. */
  lemma {:induction false} MembersAgree(x: seq<Member>, y: seq<Member>)
    requires WellFormed(Object(x)) && WellFormed(Object(y))
    ensures (forall m :: m in CanonicalMembers(x) ==> m in CanonicalMembers(y)) <==>
      forall i :: 0 <= i < |x| ==> PairedIn(x[i], y)
    decreases x, 0
  {
    var cx, cy := CanonicalMembers(x), CanonicalMembers(y);
    forall i | 0 <= i < |x|
      ensures cx[i] in cy <==> PairedIn(x[i], y)
    {
      MemberPairs(x[i], y);
    }
    if forall m :: m in cx ==> m in cy {
      forall i | 0 <= i < |x|
        ensures PairedIn(x[i], y)
      {
        assert cx[i] in cx;
      }
    }
    if forall i :: 0 <= i < |x| ==> PairedIn(x[i], y) {
      forall m | m in cx
        ensures m in cy
      {
        var i :| 0 <= i < |cx| && cx[i] == m;
        assert PairedIn(x[i], y);
      }
    }
  }

  lemma {:induction false} MemberPairs(m: Member, y: seq<Member>)
    requires WellFormed(m.value) && forall j :: 0 <= j < |y| ==> WellFormed(y[j].value)
    ensures Member(m.key, Canonicalize(m.value)) in CanonicalMembers(y) <==> PairedIn(m, y)
    decreases m, 0
  {
    var c, cy := Member(m.key, Canonicalize(m.value)), CanonicalMembers(y);
    forall j | 0 <= j < |y|
      ensures cy[j] == c <==> SameMember(m, y[j])
    {
      CanonicalIffSame(m.value, y[j].value);
    }
  }
}

/** The crash-persistent record of commands accepted and completed; the table survives every restart. */
module CommandJournals {
  import opened Prelude
  import opened CanonicalJson

  /** `payload` stands for the digest of the canonical form, taken as injective. */
  datatype Row = Row(command: string, payload: Json, result: Option<Json>, completedAt: nat)

  type Table = map<string, Row>

  datatype Prepared = New | Replay(result: Json) | StillPending | Collision

  /** What `prepare` decides about `id`, from the stored row alone. */
  function Decide(t: Table, id: string, command: string, payload: Json): Prepared {
    if id !in t then New
    else if t[id].command != command || t[id].payload != Canonicalize(payload) then Collision
    else if t[id].result.Some? then Replay(t[id].result.value)
    else StillPending
  }

  function Prepare(t: Table, id: string, command: string, payload: Json): Table {
    if id in t then t else t[id := Row(command, Canonicalize(payload), None, 0)]
  }

  predicate Completable(t: Table, id: string) {
    id in t && t[id].result.None?
  }

  function Complete(t: Table, id: string, result: Json, now: nat): Table {
    if Completable(t, id) then t[id := t[id].(result := Some(result), completedAt := now)] else t
  }

  function Abandon(t: Table, id: string): Table {
    if Completable(t, id) then t - {id} else t
  }

  function Prune(t: Table, cutoff: nat): Table {
    map id | id in t && !(t[id].result.Some? && t[id].completedAt < cutoff) :: t[id]
  }

  /** The journal object over its stored table. */
  class CommandJournal {
    var table: Table

    constructor (stored: Table)
      ensures table == stored
    {
      table := stored;
    }

    method PrepareCommand(id: string, command: string, payload: Json) returns (r: Prepared)
      modifies this
      ensures r == Decide(old(table), id, command, payload) && table == Prepare(old(table), id, command, payload)
    {
      var hash := Canonicalize(payload);
      if id !in table {
        table := table[id := Row(command, hash, None, 0)];
        return New;
      }
      var row := table[id];
      if row.command != command || row.payload != hash {
        return Collision;
      }
      r := if row.result.Some? then Replay(row.result.value) else StillPending;
    }

    method CompleteCommand(id: string, result: Json, now: nat) returns (ok: bool)
      modifies this
      ensures ok <==> Completable(old(table), id)
      ensures table == Complete(old(table), id, result, now)
    {
      if id !in table || table[id].result.Some? {
        return false;
      }
      table := table[id := table[id].(result := Some(result), completedAt := now)];
      ok := true;
    }

    method AbandonCommand(id: string)
      modifies this
      ensures table == Abandon(old(table), id)
    {
      if id in table && table[id].result.None? {
        table := table - {id};
      }
    }

    /** Every pending row and every row completed at the cutoff or later stays as it is; the older ones are gone. */
    method PruneCompleted(cutoff: nat)
      modifies this
      ensures forall id | id in old(table) && old(table)[id].result.None? :: id in table && table[id] == old(table)[id]
      ensures forall id | id in old(table) && old(table)[id].completedAt >= cutoff :: id in table && table[id] == old(table)[id]
      ensures forall id | id in table :: id in old(table) && (table[id].result.Some? ==> table[id].completedAt >= cutoff)
      ensures table == Prune(old(table), cutoff)
    {
      table := map id | id in table && !(table[id].result.Some? && table[id].completedAt < cutoff) :: table[id];
    }
  }

  // ---- whole runs ---------------------------------------------------------------------------------

  datatype Op =
    | PrepareOp(id: string, command: string, payload: Json)
    | CompleteOp(id: string, result: Json, now: nat)
    | AbandonOp(id: string)
    | PruneOp(cutoff: nat)
    | RestartOp

  function Act(t: Table, op: Op): Table {
    match op
    case PrepareOp(id, command, payload) => Prepare(t, id, command, payload)
    case CompleteOp(id, result, now) => Complete(t, id, result, now)
    case AbandonOp(id) => Abandon(t, id)
    case PruneOp(cutoff) => Prune(t, cutoff)
    case RestartOp => t
  }

  function Run(h: seq<Op>): Table {
    if h == [] then map[] else Act(Run(h[..|h| - 1]), h[|h| - 1])
  }

  lemma RunStep(h: seq<Op>, n: nat)
    requires n < |h|
    ensures Run(h[..n + 1]) == Act(Run(h[..n]), h[n])
  {
    assert h[..n + 1][..n] == h[..n];
  }

  /** Operation `m` deleted the row of `id`. */
  predicate RemovedAt(h: seq<Op>, m: nat, id: string)
    requires m < |h|
  {
    id in Run(h[..m]) && id !in Run(h[..m + 1])
  }

  /** `later` is the same accepted command as `row`, its result, once recorded, unchanged. */
  predicate SameAcceptance(row: Row, later: Row) {
    row.command == later.command && row.payload == later.payload && (row.result.Some? ==> later == row)
  }

  lemma ActKeepsRow(t: Table, op: Op, id: string)
    requires id in t
    ensures id in Act(t, op) ==> SameAcceptance(t[id], Act(t, op)[id])
    ensures id !in Act(t, op) ==> op.AbandonOp? || op.PruneOp?
  {
  }

  /** From its acceptance until a removal a row keeps its command, its payload and its first result. */
  lemma {:induction false} RowIsKept(h: seq<Op>, i: nat, j: nat, id: string)
    requires i <= j <= |h| && id in Run(h[..i])
    requires forall m | i <= m < j :: !RemovedAt(h, m, id)
    ensures id in Run(h[..j]) && SameAcceptance(Run(h[..i])[id], Run(h[..j])[id])
    decreases j
  {
    if i < j {
      RowIsKept(h, i, j - 1, id);
      RunStep(h, j - 1);
      assert !RemovedAt(h, j - 1, id);
      ActKeepsRow(Run(h[..j - 1]), h[j - 1], id);
    }
  }

  function Reply(h: seq<Op>, i: nat): Prepared
    requires i < |h| && h[i].PrepareOp?
  {
    Decide(Run(h[..i]), h[i].id, h[i].command, h[i].payload)
  }

  /** A command is new at most once per request id between removals of its row, restarts included. */
  lemma NewAtMostOnce(h: seq<Op>, i: nat, j: nat)
    requires i < j < |h| && h[i].PrepareOp? && h[j].PrepareOp? && h[i].id == h[j].id
    requires Reply(h, i).New? && Reply(h, j).New?
    ensures exists m :: i < m < j && RemovedAt(h, m, h[i].id) && (h[m].AbandonOp? || h[m].PruneOp?)
  {
    var id := h[i].id;
    RunStep(h, i);
    if forall m | i < m < j :: !RemovedAt(h, m, id) {
      RowIsKept(h, i + 1, j, id);
    }
    var m :| i < m < j && RemovedAt(h, m, id);
    RunStep(h, m);
    ActKeepsRow(Run(h[..m]), h[m], id);
  }

  /**
   * A later prepare under the same id, with the row never removed in between, is answered by that row: the same
   * document and command replays the first result or is still pending, anything else is a collision.
   */
  lemma PrepareIsAnsweredByItsRow(h: seq<Op>, i: nat, j: nat)
    requires i < j < |h| && h[i].PrepareOp? && h[j].PrepareOp? && h[i].id == h[j].id
    requires Reply(h, i).New? && forall m | i < m < j :: !RemovedAt(h, m, h[i].id)
    requires WellFormed(h[i].payload) && WellFormed(h[j].payload)
    ensures Reply(h, j).Collision? <==> h[i].command != h[j].command || !Same(h[i].payload, h[j].payload)
    ensures !Reply(h, j).New?
    ensures forall k | i < k <= j && h[i].id in Run(h[..k]) && Run(h[..k])[h[i].id].result.Some? && !Reply(h, j).Collision? ::
      Reply(h, j) == Replay(Run(h[..k])[h[i].id].result.value)
  {
    var id := h[i].id;
    RunStep(h, i);
    RowIsKept(h, i + 1, j, id);
    CanonicalIffSame(h[i].payload, h[j].payload);
    forall k | i < k <= j && id in Run(h[..k])
      ensures SameAcceptance(Run(h[..k])[id], Run(h[..j])[id])
    {
      RowIsKept(h, k, j, id);
    }
  }

  /** A completion is recorded only over a pending acceptance, so a recorded result is never overwritten. */
  lemma CompletionIsWriteOnce(h: seq<Op>, i: nat, j: nat, id: string)
    requires i <= j <= |h| && id in Run(h[..i]) && Run(h[..i])[id].result.Some?
    requires forall m | i <= m < j :: !RemovedAt(h, m, id)
    ensures id in Run(h[..j]) && Run(h[..j])[id] == Run(h[..i])[id]
    ensures !Completable(Run(h[..j]), id)
  {
    RowIsKept(h, i, j, id);
  }

  // ---- where every row came from ------------------------------------------------------------------------

  function RowOf(t: Table, id: string): Option<Row> {
    if id in t then Some(t[id]) else None
  }

  /** What an operation makes of the row of `id`. */
  function RowNext(r: Option<Row>, op: Op, id: string): Option<Row> {
    match op
    case PrepareOp(named, command, payload) =>
      if named == id && r.None? then Some(Row(command, Canonicalize(payload), None, 0)) else r
    case CompleteOp(named, result, now) =>
      if named == id && r.Some? && r.value.result.None? then Some(Row(r.value.command, r.value.payload, Some(result), now)) else r
    case AbandonOp(named) => if named == id && r.Some? && r.value.result.None? then None else r
    case PruneOp(cutoff) => if r.Some? && r.value.result.Some? && r.value.completedAt < cutoff then None else r
    case RestartOp => r
  }

  lemma RowStep(t: Table, op: Op, id: string)
    ensures RowOf(Act(t, op), id) == RowNext(RowOf(t, id), op, id)
  {
  }

  /** The row of `id` after each number of operations. */
  ghost function Rows(h: seq<Op>, id: string): (s: seq<Option<Row>>)
    ensures |s| == |h| + 1
  {
    seq(|h| + 1, n requires 0 <= n <= |h| => RowOf(Run(h[..n]), id))
  }

  predicate RowsLinked(h: seq<Op>, s: seq<Option<Row>>, id: string) {
    |s| == |h| + 1 && s[0].None? && forall k, l :: 0 <= k < |h| && l == k + 1 ==> s[l] == RowNext(s[k], h[k], id)
  }

  lemma RowsLink(h: seq<Op>, id: string)
    ensures RowsLinked(h, Rows(h, id), id)
  {
    forall k, l | 0 <= k < |h| && l == k + 1
      ensures Rows(h, id)[l] == RowNext(Rows(h, id)[k], h[k], id)
    {
      RunStep(h, k);
      RowStep(Run(h[..k]), h[k], id);
    }
  }

  /** The acceptance behind a row, and the row's presence ever since. */
  lemma {:induction false} AcceptanceOf(h: seq<Op>, s: seq<Option<Row>>, id: string, n: nat) returns (m: nat)
    requires RowsLinked(h, s, id) && n <= |h| && s[n].Some?
    ensures m < n && s[m].None? && h[m].PrepareOp? && h[m].id == id && forall k :: m < k <= n ==> s[k].Some?
    ensures s[n].value.command == h[m].command && s[n].value.payload == Canonicalize(h[m].payload)
    decreases n
  {
    assert s[n] == RowNext(s[n - 1], h[n - 1], id);
    m := n - 1;
    if s[n - 1].Some? {
      m := AcceptanceOf(h, s, id, n - 1);
    }
  }

  /** The completion behind a result, found pending, and the row unchanged ever since. */
  lemma {:induction false} CompletionOf(h: seq<Op>, s: seq<Option<Row>>, id: string, n: nat) returns (m: nat)
    requires RowsLinked(h, s, id) && n <= |h| && s[n].Some? && s[n].value.result.Some?
    ensures m < n && s[m].Some? && s[m].value.result.None? && forall k :: m < k <= n ==> s[k] == s[n]
    ensures h[m] == CompleteOp(id, s[n].value.result.value, s[n].value.completedAt)
    decreases n
  {
    assert s[n] == RowNext(s[n - 1], h[n - 1], id);
    m := n - 1;
    if s[n - 1].value.result.Some? {
      m := CompletionOf(h, s, id, n - 1);
    }
  }

  /**
   * A prepare that is answered by a replay gets exactly the result that one completion of that row carried, and the
   * row goes back to an accepted prepare of the same command and the same document.
   */
  lemma ReplayWasCompleted(h: seq<Op>, i: nat) returns (accepted: nat, completed: nat)
    requires i < |h| && h[i].PrepareOp? && Reply(h, i).Replay? && WellFormed(h[i].payload)
    requires forall m :: 0 <= m < |h| && h[m].PrepareOp? ==> WellFormed(h[m].payload)
    ensures accepted < completed < i && h[accepted].PrepareOp? && h[accepted].id == h[i].id && Reply(h, accepted).New?
    ensures h[accepted].command == h[i].command && Same(h[accepted].payload, h[i].payload)
    ensures h[completed].CompleteOp? && h[completed].id == h[i].id && Reply(h, i) == Replay(h[completed].result)
    ensures Completable(Run(h[..completed]), h[i].id)
  {
    var id, s := h[i].id, Rows(h, h[i].id);
    RowsLink(h, id);
    accepted := AcceptanceOf(h, s, id, i);
    completed := CompletionOf(h, s, id, i);
    CanonicalIffSame(h[accepted].payload, h[i].payload);
  }

  /** Entry `i` is the reply to operation `i`, if that was a prepare. */
  ghost predicate AllReplied(h: seq<Op>, replies: seq<Option<Prepared>>) {
    |replies| <= |h| && forall i | 0 <= i < |replies| :: replies[i] == Replied(Run(h[..i]), h[i])
  }

  function Replied(t: Table, op: Op): Option<Prepared> {
    if op.PrepareOp? then Some(Decide(t, op.id, op.command, op.payload)) else None
  }

  lemma ReplyNext(h: seq<Op>, replies: seq<Option<Prepared>>, reply: Option<Prepared>)
    requires AllReplied(h, replies) && |replies| < |h| && reply == Replied(Run(h[..|replies|]), h[|replies|])
    ensures AllReplied(h, replies + [reply])
  {
  }

  method Dispatch(journal: CommandJournal, op: Op) returns (reply: Option<Prepared>)
    requires !op.RestartOp?
    modifies journal
    ensures journal.table == Act(old(journal.table), op) && reply == Replied(old(journal.table), op)
  {
    reply := None;
    match op {
      case PrepareOp(id, command, payload) =>
        var r := journal.PrepareCommand(id, command, payload);
        reply := Some(r);
      case CompleteOp(id, result, now) => var _ := journal.CompleteCommand(id, result, now);
      case AbandonOp(id) => journal.AbandonCommand(id);
      case PruneOp(cutoff) => journal.PruneCompleted(cutoff);
    }
  }

  /** A journal driven through any operations, a restart being a new object over the same table. */
  method DriveJournal(h: seq<Op>) returns (table: Table, replies: seq<Option<Prepared>>)
    ensures table == Run(h) && |replies| == |h| && AllReplied(h, replies)
  {
    var journal := new CommandJournal(map[]);
    replies := [];
    for n := 0 to |h|
      invariant fresh(journal) && journal.table == Run(h[..n]) && |replies| == n && AllReplied(h, replies)
    {
      var reply: Option<Prepared> := None;
      if h[n].RestartOp? {
        journal := new CommandJournal(journal.table);
      } else {
        reply := Dispatch(journal, h[n]);
      }
      RunStep(h, n);
      ReplyNext(h, replies, reply);
      replies := replies + [reply];
    }
    assert h[..|h|] == h;
    table := journal.table;
  }
}
