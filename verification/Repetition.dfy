/**
 * Repeat counts over conversation roots: one pass with sets and tables against quadratic definitions over a sample of
 * one earliest root per tree, in order of time.
 */
module Repetition {
  import opened Basics

  // ----- dataset rows -----

  datatype Role = Assistant | Prompter | OtherRole

  /** A timestamp field: not text, empty text, text that is no time with a zone, or an instant. */
  datatype Stamp = NoText | Empty | Unusable | At(instant: int)

  /** A missing or non-text field is `None`; `excluded` means deleted or synthetic. */
  datatype Row = Row(role: Role, hasParent: bool, excluded: bool, tree: Option<string>, user: Option<string>,
                     stamp: Stamp, id: Option<string>, text: Option<string>)

  datatype Root = Root(time: int, id: string, tree: string, user: Option<string>, text: string)

  predicate Filled(field: Option<string>) {
    field.Some? && field.value != ""
  }

  /** An assistant answer in a named tree with a timestamp that is text. */
  predicate IsReply(r: Row) {
    r.role == Assistant && r.hasParent && !r.excluded && Filled(r.tree) && !r.stamp.NoText?
  }

  /** An original, nonblank opening prompt with tree, id and timestamp. */
  predicate IsRoot(r: Row) {
    && r.role == Prompter && !r.hasParent && !r.excluded
    && r.text.Some? && !Blank(r.text.value)
    && Filled(r.tree) && Filled(r.id) && !r.stamp.NoText? && !r.stamp.Empty?
  }

  predicate Unreadable(r: Row) {
    (IsReply(r) || IsRoot(r)) && !r.stamp.At?
  }

  function RootOf(r: Row): Root
    requires IsRoot(r) && r.stamp.At?
  {
    Root(r.stamp.instant, r.id.value, r.tree.value, r.user, r.text.value)
  }

  // ----- the sample, declared -----

  function EligibleRoots(rows: seq<Row>): seq<Root> {
    if rows == [] then []
    else
      var r := rows[|rows| - 1];
      EligibleRoots(rows[..|rows| - 1]) + if IsRoot(r) && r.stamp.At? then [RootOf(r)] else []
  }

  /** Text order by code point. */
  predicate TextLeq(a: string, b: string) {
    a == "" || (b != "" && (a[0] < b[0] || (a[0] == b[0] && TextLeq(a[1..], b[1..]))))
  }

  predicate NotAfter(a: Root, b: Root) {
    a.time < b.time || (a.time == b.time && TextLeq(a.id, b.id))
  }

  function Insert(r: Root, sorted: seq<Root>): seq<Root> {
    if sorted == [] then [r]
    else if NotAfter(sorted[0], r) then [sorted[0]] + Insert(r, sorted[1..])
    else [r] + sorted
  }

  /** Stable order by time, then by message id. */
  function Sorted(roots: seq<Root>): seq<Root> {
    if roots == [] then [] else Insert(roots[|roots| - 1], Sorted(roots[..|roots| - 1]))
  }

  predicate TreeIn(roots: seq<Root>, tree: string) {
    exists j :: 0 <= j < |roots| && roots[j].tree == tree
  }

  /** Only the first root of each tree. */
  function FirstOfTrees(roots: seq<Root>): seq<Root> {
    if roots == [] then []
    else
      var before, r := FirstOfTrees(roots[..|roots| - 1]), roots[|roots| - 1];
      if TreeIn(roots[..|roots| - 1], r.tree) then before else before + [r]
  }

  ghost predicate InOrder(roots: seq<Root>) {
    forall i, j :: 0 <= i < j < |roots| ==> NotAfter(roots[i], roots[j])
  }

  ghost predicate DistinctTrees(roots: seq<Root>) {
    forall i, j :: 0 <= i < j < |roots| ==> roots[i].tree != roots[j].tree
  }

  lemma {:induction false} TextTotal(a: string, b: string)
    ensures TextLeq(a, b) || TextLeq(b, a)
  {
    if a != "" && b != "" && a[0] == b[0] {
      TextTotal(a[1..], b[1..]);
    }
  }

  lemma {:induction false} TextTransitive(a: string, b: string, c: string)
    requires TextLeq(a, b) && TextLeq(b, c)
    ensures TextLeq(a, c)
  {
    if a != "" && b != "" && c != "" && a[0] == b[0] == c[0] {
      TextTransitive(a[1..], b[1..], c[1..]);
    }
  }

  lemma OrderTotal(a: Root, b: Root)
    ensures NotAfter(a, b) || NotAfter(b, a)
  {
    TextTotal(a.id, b.id);
  }

  lemma OrderTransitive(a: Root, b: Root, c: Root)
    requires NotAfter(a, b) && NotAfter(b, c)
    ensures NotAfter(a, c)
  {
    if a.time == b.time == c.time {
      TextTransitive(a.id, b.id, c.id);
    }
  }

  lemma {:induction false} InsertOrder(r: Root, sorted: seq<Root>)
    requires InOrder(sorted)
    ensures InOrder(Insert(r, sorted))
    ensures forall x :: x in Insert(r, sorted) ==> x == r || x in sorted
  {
    hide NotAfter;
    if sorted == [] {
    } else if NotAfter(sorted[0], r) {
      InsertOrder(r, sorted[1..]);
      var rest := Insert(r, sorted[1..]);
      forall j | 0 <= j < |rest|
        ensures NotAfter(sorted[0], rest[j])
      {
        assert rest[j] in rest;
      }
    } else {
      OrderTotal(sorted[0], r);
      forall j | 0 <= j < |sorted|
        ensures NotAfter(r, sorted[j])
      {
        if j > 0 {
          OrderTransitive(r, sorted[0], sorted[j]);
        }
      }
    }
  }

  lemma {:induction false} InsertContents(r: Root, sorted: seq<Root>)
    ensures multiset(Insert(r, sorted)) == multiset(sorted) + multiset{r}
  {
    if sorted != [] && NotAfter(sorted[0], r) {
      InsertContents(r, sorted[1..]);
      assert sorted == [sorted[0]] + sorted[1..];
    }
  }

  /** The order of processing is a reordering, by time and id, of exactly the eligible roots. */
  lemma {:induction false} SortedFacts(roots: seq<Root>)
    ensures InOrder(Sorted(roots)) && multiset(Sorted(roots)) == multiset(roots)
  {
    if roots == [] {
    } else {
      var n := |roots| - 1;
      SortedFacts(roots[..n]);
      InsertOrder(roots[n], Sorted(roots[..n]));
      InsertContents(roots[n], Sorted(roots[..n]));
      assert roots == roots[..n] + [roots[n]];
    }
  }

  lemma {:induction false} FirstOfTreesMembers(roots: seq<Root>)
    ensures forall r :: r in FirstOfTrees(roots) ==> r in roots
  {
    if roots == [] {
    } else {
      FirstOfTreesMembers(roots[..|roots| - 1]);
    }
  }

  lemma {:induction false} FirstOfTreesOrder(roots: seq<Root>)
    requires InOrder(roots)
    ensures InOrder(FirstOfTrees(roots)) && DistinctTrees(FirstOfTrees(roots))
  {
    if roots == [] {
    } else {
      var n := |roots| - 1;
      var init, last, before := roots[..n], roots[n], FirstOfTrees(roots[..n]);
      FirstOfTreesOrder(init);
      FirstOfTreesMembers(init);
      forall i | 0 <= i < |before|
        ensures NotAfter(before[i], last) && (before[i].tree == last.tree ==> TreeIn(init, last.tree))
      {
        assert before[i] in init;
        var j :| 0 <= j < n && init[j] == before[i];
      }
    }
  }

  ghost predicate Covers(kept: seq<Root>, r: Root) {
    exists k :: 0 <= k < |kept| && kept[k].tree == r.tree && (kept[k] == r || NotAfter(kept[k], r))
  }

  /** Every tree keeps a root, and one of its earliest. */
  lemma {:induction false} FirstOfTreesCovers(roots: seq<Root>)
    requires InOrder(roots)
    ensures forall r :: r in roots ==> Covers(FirstOfTrees(roots), r)
  {
    if roots == [] {
    } else {
      hide Covers;
      var n := |roots| - 1;
      FirstOfTreesCovers(roots[..n]);
      assert roots == roots[..n] + [roots[n]];
      forall r | r in roots
        ensures Covers(FirstOfTrees(roots), r)
      {
        KeptCovers(roots[..n], roots[n], FirstOfTrees(roots[..n]), r);
      }
    }
  }

  lemma KeptCovers(init: seq<Root>, last: Root, before: seq<Root>, r: Root)
    requires forall x :: x in init ==> Covers(before, x)
    requires (r in init || r == last) && forall j :: 0 <= j < |init| ==> NotAfter(init[j], last)
    ensures Covers(if TreeIn(init, last.tree) then before else before + [last], r)
  {
    if r in init {
      var k :| 0 <= k < |before| && before[k].tree == r.tree && (before[k] == r || NotAfter(before[k], r));
      assert (before + [last])[k] == before[k];
    } else if TreeIn(init, last.tree) {
      var j :| 0 <= j < |init| && init[j].tree == last.tree;
      assert Covers(before, init[j]);
      var k :| 0 <= k < |before| && before[k].tree == init[j].tree && (before[k] == init[j] || NotAfter(before[k], init[j]));
      if before[k] != init[j] {
        OrderTransitive(before[k], init[j], last);
      }
    } else {
      assert (before + [last])[|before|] == last;
    }
  }

  // ----- the counts, declared quadratically -----

  type Key = Root -> string

  type Replies = map<string, seq<int>>

  /** When the answers of a tree were given. */
  function RepliesTo(rows: seq<Row>, tree: string): seq<int> {
    if rows == [] then []
    else
      var r := rows[|rows| - 1];
      RepliesTo(rows[..|rows| - 1], tree) + if IsReply(r) && r.stamp.At? && r.tree.value == tree then [r.stamp.instant] else []
  }

  function In(replies: Replies, tree: string): seq<int> {
    if tree in replies then replies[tree] else []
  }

  predicate Repeats(s: seq<Root>, key: Key, r: Root) {
    exists j :: 0 <= j < |s| && key(s[j]) == key(r)
  }

  predicate RepeatsOwn(s: seq<Root>, key: Key, r: Root) {
    r.user.Some? && exists j :: 0 <= j < |s| && s[j].user == r.user && key(s[j]) == key(r)
  }

  predicate AnsweredBefore(replies: Replies, tree: string, time: int) {
    exists t :: t in In(replies, tree) && t < time
  }

  /** Some earlier root with the same key already had an answer before this root was written. */
  predicate HadAnswer(s: seq<Root>, key: Key, replies: Replies, r: Root) {
    exists j :: 0 <= j < |s| && key(s[j]) == key(r) && AnsweredBefore(replies, s[j].tree, r.time)
  }

  function RepeatCount(s: seq<Root>, key: Key): nat {
    if s == [] then 0
    else RepeatCount(s[..|s| - 1], key) + if Repeats(s[..|s| - 1], key, s[|s| - 1]) then 1 else 0
  }

  function OwnCount(s: seq<Root>, key: Key): nat {
    if s == [] then 0
    else OwnCount(s[..|s| - 1], key) + if RepeatsOwn(s[..|s| - 1], key, s[|s| - 1]) then 1 else 0
  }

  function AnsweredCount(s: seq<Root>, key: Key, replies: Replies): nat {
    if s == [] then 0
    else AnsweredCount(s[..|s| - 1], key, replies) + if HadAnswer(s[..|s| - 1], key, replies, s[|s| - 1]) then 1 else 0
  }

  ghost function Keys(s: seq<Root>, key: Key): set<string> {
    set i | 0 <= i < |s| :: key(s[i])
  }

  /** Repeats are what is left after counting each different key once. */
  lemma {:induction false} RepeatsAreSizeMinusDistinct(s: seq<Root>, key: Key)
    ensures RepeatCount(s, key) == |s| - |Keys(s, key)|
  {
    if s == [] {
    } else {
      var n := |s| - 1;
      RepeatsAreSizeMinusDistinct(s[..n], key);
      assert forall i :: 0 <= i < n ==> s[..n][i] == s[i];
      assert Keys(s, key) == Keys(s[..n], key) + {key(s[n])};
      assert Repeats(s[..n], key, s[n]) <==> key(s[n]) in Keys(s[..n], key);
    }
  }

  /** Repeats by the same user, and repeats of something already answered, are repeats. */
  lemma {:induction false} SpecialRepeatsAreRepeats(s: seq<Root>, key: Key, replies: Replies)
    ensures OwnCount(s, key) <= RepeatCount(s, key) && AnsweredCount(s, key, replies) <= RepeatCount(s, key)
  {
    if s == [] {
    } else {
      SpecialRepeatsAreRepeats(s[..|s| - 1], key, replies);
    }
  }

  /** A coarser key only merges texts, so each of the three counts can only grow. */
  lemma {:induction false} CoarserKeysRepeatMore(s: seq<Root>, fine: Key, coarse: Key, replies: Replies)
    requires forall i, j :: 0 <= i < |s| && 0 <= j < |s| && fine(s[i]) == fine(s[j]) ==> coarse(s[i]) == coarse(s[j])
    ensures RepeatCount(s, fine) <= RepeatCount(s, coarse) && OwnCount(s, fine) <= OwnCount(s, coarse)
    ensures AnsweredCount(s, fine, replies) <= AnsweredCount(s, coarse, replies)
  {
    if s == [] {
    } else {
      var n := |s| - 1;
      var init, r := s[..n], s[n];
      assert forall i :: 0 <= i < n ==> init[i] == s[i];
      CoarserKeysRepeatMore(init, fine, coarse, replies);
      assert forall j :: 0 <= j < n && fine(init[j]) == fine(r) ==> coarse(init[j]) == coarse(r);
    }
  }

  predicate RepeatAt(s: seq<Root>, key: Key, i: nat)
    requires i < |s|
  {
    exists j :: 0 <= j < i && key(s[j]) == key(s[i])
  }

  predicate OwnRepeatAt(s: seq<Root>, key: Key, i: nat)
    requires i < |s|
  {
    s[i].user.Some? && exists j :: 0 <= j < i && s[j].user == s[i].user && key(s[j]) == key(s[i])
  }

  predicate AnsweredRepeatAt(s: seq<Root>, key: Key, replies: Replies, i: nat)
    requires i < |s|
  {
    exists j, t :: 0 <= j < i && key(s[j]) == key(s[i]) && s[j].tree in replies && t in replies[s[j].tree] && t < s[i].time
  }

  function RepeatsOf(s: seq<Root>, key: Key): set<nat> {
    set i: nat | i < |s| && RepeatAt(s, key, i)
  }

  function OwnRepeatsOf(s: seq<Root>, key: Key): set<nat> {
    set i: nat | i < |s| && OwnRepeatAt(s, key, i)
  }

  function AnsweredRepeatsOf(s: seq<Root>, key: Key, replies: Replies): set<nat> {
    set i: nat | i < |s| && AnsweredRepeatAt(s, key, replies, i)
  }

  /** The three counts are the numbers of positions that repeat, repeat the user's own, or repeat something answered before. */
  lemma {:induction false} CountsAreSizes(s: seq<Root>, key: Key, replies: Replies)
    ensures RepeatCount(s, key) == |RepeatsOf(s, key)| && OwnCount(s, key) == |OwnRepeatsOf(s, key)|
    ensures AnsweredCount(s, key, replies) == |AnsweredRepeatsOf(s, key, replies)|
  {
    hide RepeatAt, OwnRepeatAt, AnsweredRepeatAt, Repeats, RepeatsOwn, HadAnswer;
    if s != [] {
      CountsAreSizes(s[..|s| - 1], key, replies);
      OneMoreRepeat(s, key);
      OneMoreOwn(s, key);
      OneMoreAnswered(s, key, replies);
      hide RepeatsOf, OwnRepeatsOf, AnsweredRepeatsOf;
    }
  }

  lemma OneMoreRepeat(s: seq<Root>, key: Key)
    requires s != []
    ensures var n := |s| - 1; |RepeatsOf(s, key)| == |RepeatsOf(s[..n], key)| + if Repeats(s[..n], key, s[n]) then 1 else 0
  {
    LastDecides(s, key, map[]);
    hide RepeatAt, Repeats;
    var n := |s| - 1;
    assert RepeatsOf(s, key) == RepeatsOf(s[..n], key) + if Repeats(s[..n], key, s[n]) then {n} else {};
  }

  lemma OneMoreOwn(s: seq<Root>, key: Key)
    requires s != []
    ensures var n := |s| - 1; |OwnRepeatsOf(s, key)| == |OwnRepeatsOf(s[..n], key)| + if RepeatsOwn(s[..n], key, s[n]) then 1 else 0
  {
    LastDecides(s, key, map[]);
    hide OwnRepeatAt, RepeatsOwn;
    var n := |s| - 1;
    assert OwnRepeatsOf(s, key) == OwnRepeatsOf(s[..n], key) + if RepeatsOwn(s[..n], key, s[n]) then {n} else {};
  }

  lemma OneMoreAnswered(s: seq<Root>, key: Key, replies: Replies)
    requires s != []
    ensures var n := |s| - 1;
      |AnsweredRepeatsOf(s, key, replies)|
      == |AnsweredRepeatsOf(s[..n], key, replies)| + if HadAnswer(s[..n], key, replies, s[n]) then 1 else 0
  {
    LastDecides(s, key, replies);
    hide AnsweredRepeatAt, HadAnswer;
    var n := |s| - 1;
    assert AnsweredRepeatsOf(s, key, replies)
        == AnsweredRepeatsOf(s[..n], key, replies) + if HadAnswer(s[..n], key, replies, s[n]) then {n} else {};
  }

  lemma LastDecides(s: seq<Root>, key: Key, replies: Replies)
    requires s != []
    ensures var n := |s| - 1;
      && (RepeatAt(s, key, n) <==> Repeats(s[..n], key, s[n])) && (OwnRepeatAt(s, key, n) <==> RepeatsOwn(s[..n], key, s[n]))
      && (AnsweredRepeatAt(s, key, replies, n) <==> HadAnswer(s[..n], key, replies, s[n]))
      && forall i: nat :: i < n ==>
           && (RepeatAt(s, key, i) <==> RepeatAt(s[..n], key, i)) && (OwnRepeatAt(s, key, i) <==> OwnRepeatAt(s[..n], key, i))
           && (AnsweredRepeatAt(s, key, replies, i) <==> AnsweredRepeatAt(s[..n], key, replies, i))
  {
    var n := |s| - 1;
    if HadAnswer(s[..n], key, replies, s[n]) {
      var j :| 0 <= j < n && key(s[..n][j]) == key(s[n]) && AnsweredBefore(replies, s[..n][j].tree, s[n].time);
      var t :| t in In(replies, s[j].tree) && t < s[n].time;
      assert key(s[j]) == key(s[n]) && t in replies[s[j].tree];
    }
    if AnsweredRepeatAt(s, key, replies, n) {
      var j, t :| 0 <= j < n && key(s[j]) == key(s[n]) && s[j].tree in replies && t in replies[s[j].tree] && t < s[n].time;
      assert t in In(replies, s[..n][j].tree);
      assert AnsweredBefore(replies, s[..n][j].tree, s[n].time);
    }
  }

  // ----- the one-pass computation -----

  datatype Refusal = BadLimit | BadTimestamp | TooFewRoots

  ghost predicate RepliesAre(rows: seq<Row>, replies: Replies) {
    forall tree :: In(replies, tree) == RepliesTo(rows, tree)
  }

  lemma ReplyAdded(rows: seq<Row>, i: nat, replies: Replies)
    requires i < |rows| && RepliesAre(rows[..i], replies)
    ensures !(IsReply(rows[i]) && rows[i].stamp.At?) ==> RepliesAre(rows[..i + 1], replies)
    ensures IsReply(rows[i]) && rows[i].stamp.At? ==>
      var tree := rows[i].tree.value;
      RepliesAre(rows[..i + 1], replies[tree := In(replies, tree) + [rows[i].stamp.instant]])
  {
    var before, after := rows[..i], rows[..i + 1];
    assert after[..i] == before && after[i] == rows[i];
    forall tree
      ensures RepliesTo(after, tree)
        == RepliesTo(before, tree)
           + if IsReply(rows[i]) && rows[i].stamp.At? && rows[i].tree.value == tree then [rows[i].stamp.instant] else []
    {
    }
    if IsReply(rows[i]) && rows[i].stamp.At? {
      var own := rows[i].tree.value;
      var more := replies[own := In(replies, own) + [rows[i].stamp.instant]];
      forall tree
        ensures In(more, tree) == RepliesTo(after, tree)
      {
        assert In(replies, tree) == RepliesTo(before, tree);
      }
    }
  }

  /** Every answer's time under its tree, or a refusal when some answer's time cannot be read. */
  method GatherReplies(rows: seq<Row>) returns (ok: bool, replies: Replies)
    ensures ok <==> forall i :: 0 <= i < |rows| ==> !(IsReply(rows[i]) && Unreadable(rows[i]))
    ensures ok ==> RepliesAre(rows, replies)
  {
    replies := map[];
    for i := 0 to |rows|
      invariant forall j :: 0 <= j < i ==> !(IsReply(rows[j]) && Unreadable(rows[j]))
      invariant RepliesAre(rows[..i], replies)
    {
      var r := rows[i];
      ReplyAdded(rows, i, replies);
      hide RepliesAre;
      if IsReply(r) {
        if !r.stamp.At? {
          return false, map[];
        }
        replies := replies[r.tree.value := In(replies, r.tree.value) + [r.stamp.instant]];
      }
    }
    assert rows[..|rows|] == rows;
    ok := true;
  }

  method GatherRoots(rows: seq<Row>) returns (ok: bool, roots: seq<Root>)
    ensures ok <==> forall i :: 0 <= i < |rows| ==> !(IsRoot(rows[i]) && Unreadable(rows[i]))
    ensures ok ==> roots == EligibleRoots(rows)
  {
    roots := [];
    for i := 0 to |rows|
      invariant forall j :: 0 <= j < i ==> !(IsRoot(rows[j]) && Unreadable(rows[j]))
      invariant roots == EligibleRoots(rows[..i])
    {
      assert rows[..i + 1][..i] == rows[..i];
      if IsRoot(rows[i]) {
        if !rows[i].stamp.At? {
          return false, [];
        }
        roots := roots + [RootOf(rows[i])];
      }
    }
    assert rows[..|rows|] == rows;
    ok := true;
  }

  method Deduplicate(roots: seq<Root>) returns (unique: seq<Root>)
    ensures unique == FirstOfTrees(roots)
  {
    unique := [];
    var seenTrees: set<string> := {};
    for i := 0 to |roots|
      invariant unique == FirstOfTrees(roots[..i])
      invariant forall tree :: tree in seenTrees <==> TreeIn(roots[..i], tree)
    {
      assert roots[..i + 1][..i] == roots[..i] && roots[..i + 1][i] == roots[i];
      TreeInMore(roots, i);
      if roots[i].tree !in seenTrees {
        seenTrees := seenTrees + {roots[i].tree};
        unique := unique + [roots[i]];
      }
    }
    assert roots[..|roots|] == roots;
  }

  lemma TreeInMore(roots: seq<Root>, i: nat)
    requires i < |roots|
    ensures forall tree :: TreeIn(roots[..i + 1], tree) <==> TreeIn(roots[..i], tree) || tree == roots[i].tree
  {
    forall tree
      ensures TreeIn(roots[..i + 1], tree) <==> TreeIn(roots[..i], tree) || tree == roots[i].tree
    {
      assert forall j :: 0 <= j < i ==> roots[..i + 1][j] == roots[..i][j];
      assert roots[..i + 1][i] == roots[i];
    }
  }

  /** What is kept per key: keys seen, earliest answer per key, keys per user, and the three counts. */
  datatype Tracker = Tracker(seen: set<string>, prior: map<string, int>, own: map<string, set<string>>,
                             repeats: nat, ownRepeats: nat, answered: nat)

  const NOTHING_SEEN := Tracker({}, map[], map[], 0, 0, 0)

  function OwnKeys(own: map<string, set<string>>, user: string): set<string> {
    if user in own then own[user] else {}
  }

  function Earliest(times: seq<int>): (r: int)
    requires times != []
    ensures r in times && forall t :: t in times ==> r <= t
  {
    var last := times[|times| - 1];
    if |times| == 1 then last
    else
      var rest := Earliest(times[..|times| - 1]);
      assert times == times[..|times| - 1] + [last];
      if last < rest then last else rest
  }

  ghost predicate SeenIs(s: seq<Root>, key: Key, seen: set<string>) {
    forall k :: k in seen <==> exists j :: 0 <= j < |s| && key(s[j]) == k
  }

  ghost predicate OwnIs(s: seq<Root>, key: Key, own: map<string, set<string>>) {
    forall u, k :: k in OwnKeys(own, u) <==> exists j :: 0 <= j < |s| && s[j].user == Some(u) && key(s[j]) == k
  }

  /** The table holds, per key, the earliest answer in any tree opened with that key. */
  ghost predicate PriorIs(s: seq<Root>, key: Key, replies: Replies, prior: map<string, int>) {
    && (forall j, t :: 0 <= j < |s| && t in In(replies, s[j].tree) ==> key(s[j]) in prior && prior[key(s[j])] <= t)
    && (forall k :: k in prior ==> exists j :: 0 <= j < |s| && key(s[j]) == k && prior[k] in In(replies, s[j].tree))
  }

  ghost predicate Tracks(s: seq<Root>, key: Key, replies: Replies, t: Tracker) {
    && SeenIs(s, key, t.seen) && OwnIs(s, key, t.own) && PriorIs(s, key, replies, t.prior)
    && t.repeats == RepeatCount(s, key) && t.ownRepeats == OwnCount(s, key) && t.answered == AnsweredCount(s, key, replies)
  }

  /** One root more, by lookups alone. */
  method Track(ghost s: seq<Root>, key: Key, replies: Replies, t: Tracker, r: Root) returns (u: Tracker)
    requires Tracks(s, key, replies, t)
    ensures Tracks(s + [r], key, replies, u)
  {
    hide SeenIs, OwnIs, PriorIs, Repeats, RepeatsOwn, HadAnswer;
    var k := key(r);
    assert (s + [r])[..|s|] == s;
    LookupsDecide(s, key, replies, t, r);
    SeenGrows(s, key, t.seen, r);
    OwnGrows(s, key, t.own, r);
    PriorGrows(s, key, replies, t.prior, r);
    var repeats := t.repeats + if k in t.seen then 1 else 0;
    var answered := t.answered + if k in t.prior && t.prior[k] < r.time then 1 else 0;
    var seen, prior := t.seen + {k}, t.prior;
    if In(replies, r.tree) != [] {
      var earliest := Earliest(In(replies, r.tree));
      prior := prior[k := if k in prior && prior[k] < earliest then prior[k] else earliest];
    }
    var own, ownRepeats := t.own, t.ownRepeats;
    if r.user.Some? {
      ownRepeats := ownRepeats + if k in OwnKeys(own, r.user.value) then 1 else 0;
      own := own[r.user.value := OwnKeys(own, r.user.value) + {k}];
    }
    u := Tracker(seen, prior, own, repeats, ownRepeats, answered);
  }

  /** The three lookups answer the three quadratic questions. */
  lemma LookupsDecide(s: seq<Root>, key: Key, replies: Replies, t: Tracker, r: Root)
    requires Tracks(s, key, replies, t)
    ensures key(r) in t.seen <==> Repeats(s, key, r)
    ensures (r.user.Some? && key(r) in OwnKeys(t.own, r.user.value)) <==> RepeatsOwn(s, key, r)
    ensures (key(r) in t.prior && t.prior[key(r)] < r.time) <==> HadAnswer(s, key, replies, r)
  {
    hide RepeatCount, OwnCount, AnsweredCount, In;
    if HadAnswer(s, key, replies, r) {
      var j :| 0 <= j < |s| && key(s[j]) == key(r) && AnsweredBefore(replies, s[j].tree, r.time);
    }
    if key(r) in t.prior && t.prior[key(r)] < r.time {
      var j :| 0 <= j < |s| && key(s[j]) == key(r) && t.prior[key(r)] in In(replies, s[j].tree);
      assert AnsweredBefore(replies, s[j].tree, r.time);
    }
  }

  lemma SeenGrows(s: seq<Root>, key: Key, seen: set<string>, r: Root)
    requires SeenIs(s, key, seen)
    ensures SeenIs(s + [r], key, seen + {key(r)})
  {
    var more := s + [r];
    assert more[|s|] == r && forall j :: 0 <= j < |s| ==> more[j] == s[j];
  }

  lemma OwnGrows(s: seq<Root>, key: Key, own: map<string, set<string>>, r: Root)
    requires OwnIs(s, key, own)
    ensures OwnIs(s + [r], key, if r.user.Some? then own[r.user.value := OwnKeys(own, r.user.value) + {key(r)}] else own)
  {
    var more := s + [r];
    var after := if r.user.Some? then own[r.user.value := OwnKeys(own, r.user.value) + {key(r)}] else own;
    assert more[|s|] == r && forall j :: 0 <= j < |s| ==> more[j] == s[j];
    forall u, k
      ensures k in OwnKeys(after, u) <==> exists j :: 0 <= j < |more| && more[j].user == Some(u) && key(more[j]) == k
    {
      assert k in OwnKeys(after, u) <==> k in OwnKeys(own, u) || (r.user == Some(u) && key(r) == k);
      if k in OwnKeys(own, u) {
        var j :| 0 <= j < |s| && s[j].user == Some(u) && key(s[j]) == k;
        assert more[j].user == Some(u);
      }
    }
  }

  lemma PriorGrows(s: seq<Root>, key: Key, replies: Replies, prior: map<string, int>, r: Root)
    requires PriorIs(s, key, replies, prior)
    ensures In(replies, r.tree) == [] ==> PriorIs(s + [r], key, replies, prior)
    ensures In(replies, r.tree) != [] ==>
      var first := Earliest(In(replies, r.tree));
      PriorIs(s + [r], key, replies, prior[key(r) := if key(r) in prior && prior[key(r)] < first then prior[key(r)] else first])
  {
    hide In, Earliest;
    var more := s + [r];
    assert more[|s|] == r && forall j :: 0 <= j < |s| ==> more[j] == s[j];
    if In(replies, r.tree) == [] {
      assert forall t :: t !in In(replies, r.tree);
    } else {
      var first := Earliest(In(replies, r.tree));
      var after := prior[key(r) := if key(r) in prior && prior[key(r)] < first then prior[key(r)] else first];
      forall k | k in after
        ensures exists j :: 0 <= j < |more| && key(more[j]) == k && after[k] in In(replies, more[j].tree)
      {
        if k == key(r) && after[k] == first {
          assert after[k] in In(replies, more[|s|].tree);
        } else {
          var j :| 0 <= j < |s| && key(s[j]) == k && prior[k] in In(replies, s[j].tree);
          assert key(more[j]) == k;
        }
      }
    }
  }

  datatype Counts = Counts(repeats: nat, ownRepeats: nat, answered: nat)

  function CountsFor(s: seq<Root>, key: Key, replies: Replies): Counts {
    Counts(RepeatCount(s, key), OwnCount(s, key), AnsweredCount(s, key, replies))
  }

  function Exact(r: Root): string {
    r.text
  }

  function Canonical(normalize: string -> string): Key {
    (r: Root) => normalize(r.text)
  }

  datatype Summary = Summary(size: nat, eligible: nat, exact: Counts, canonical: Counts)

  /** The sample: the first `limit` roots, one per tree, in order of time. */
  function Sample(rows: seq<Row>): seq<Root> {
    FirstOfTrees(Sorted(EligibleRoots(rows)))
  }

  /** One pass over the sample gives exactly the declared counts, for the exact and for the coarser key. */
  method SummarizeFirstTurns(rows: seq<Row>, limit: int, normalize: string -> string) returns (result: Result<Summary, Refusal>)
    ensures result == Err(BadLimit) <==> limit <= 0
    ensures result == Err(BadTimestamp) <==> limit > 0 && exists i :: 0 <= i < |rows| && Unreadable(rows[i])
    ensures result == Err(TooFewRoots) <==> limit > |Sample(rows)| && limit > 0 && forall i :: 0 <= i < |rows| ==> !Unreadable(rows[i])
    ensures result.Ok? ==> limit <= |Sample(rows)| && Summarizes(rows, Sample(rows)[..limit], normalize, result.value)
  {
    if limit <= 0 {
      return Err(BadLimit);
    }
    var ok, replies := GatherReplies(rows);
    if !ok {
      return Err(BadTimestamp);
    }
    var rootsOk, roots := GatherRoots(rows);
    if !rootsOk {
      return Err(BadTimestamp);
    }
    hide IsReply, IsRoot;
    assert forall i :: 0 <= i < |rows| ==> !Unreadable(rows[i]);
    var unique := Deduplicate(Sorted(roots));
    if |unique| < limit {
      return Err(TooFewRoots);
    }
    var sample := unique[..limit];
    var exact, canonical := NOTHING_SEEN, NOTHING_SEEN;
    hide Tracks;
    NothingTracked(Exact, replies);
    NothingTracked(Canonical(normalize), replies);
    for i := 0 to |sample|
      invariant Tracks(sample[..i], Exact, replies, exact) && Tracks(sample[..i], Canonical(normalize), replies, canonical)
    {
      TakeOneMore(sample, i);
      exact := Track(sample[..i], Exact, replies, exact, sample[i]);
      canonical := Track(sample[..i], Canonical(normalize), replies, canonical, sample[i]);
    }
    assert sample[..|sample|] == sample;
    TrackedCounts(sample, Exact, replies, exact);
    TrackedCounts(sample, Canonical(normalize), replies, canonical);
    result := Ok(Summary(|sample|, |unique|, Counts(exact.repeats, exact.ownRepeats, exact.answered),
                         Counts(canonical.repeats, canonical.ownRepeats, canonical.answered)));
  }

  ghost predicate Summarizes(rows: seq<Row>, sample: seq<Root>, normalize: string -> string, summary: Summary) {
    && summary.size == |sample| && summary.eligible == |Sample(rows)|
    && exists replies :: RepliesAre(rows, replies)
         && summary.exact == CountsFor(sample, Exact, replies) && summary.canonical == CountsFor(sample, Canonical(normalize), replies)
  }

  lemma NothingTracked(key: Key, replies: Replies)
    ensures Tracks([], key, replies, NOTHING_SEEN)
  {
  }

  lemma TrackedCounts(s: seq<Root>, key: Key, replies: Replies, t: Tracker)
    requires Tracks(s, key, replies, t)
    ensures Counts(t.repeats, t.ownRepeats, t.answered) == CountsFor(s, key, replies)
  {
  }

  /** What the six reported numbers have to do with each other. */
  lemma SummaryRelations(rows: seq<Row>, sample: seq<Root>, normalize: string -> string, summary: Summary)
    requires Summarizes(rows, sample, normalize, summary)
    ensures summary.exact.repeats == |sample| - |set i | 0 <= i < |sample| :: sample[i].text|
    ensures summary.canonical.repeats == |sample| - |set i | 0 <= i < |sample| :: normalize(sample[i].text)|
    ensures summary.exact.repeats <= summary.canonical.repeats
    ensures summary.exact.ownRepeats <= summary.canonical.ownRepeats && summary.exact.answered <= summary.canonical.answered
    ensures summary.exact.ownRepeats <= summary.exact.repeats && summary.exact.answered <= summary.exact.repeats
    ensures summary.canonical.ownRepeats <= summary.canonical.repeats && summary.canonical.answered <= summary.canonical.repeats
  {
    var replies :| RepliesAre(rows, replies)
      && summary.exact == CountsFor(sample, Exact, replies) && summary.canonical == CountsFor(sample, Canonical(normalize), replies);
    RepeatsAreSizeMinusDistinct(sample, Exact);
    RepeatsAreSizeMinusDistinct(sample, Canonical(normalize));
    assert Keys(sample, Exact) == set i | 0 <= i < |sample| :: sample[i].text;
    assert Keys(sample, Canonical(normalize)) == set i | 0 <= i < |sample| :: normalize(sample[i].text);
    SpecialRepeatsAreRepeats(sample, Exact, replies);
    SpecialRepeatsAreRepeats(sample, Canonical(normalize), replies);
    CoarserKeysRepeatMore(sample, Exact, Canonical(normalize), replies);
  }

  /** Text order is lexicographic: a prefix comes first, or the smaller character at the first difference decides. */
  lemma {:induction false} TextLeqIff(a: string, b: string)
    ensures TextLeq(a, b) <==> a <= b || exists i :: 0 <= i < |a| && i < |b| && a[..i] == b[..i] && a[i] < b[i]
  {
    if a == "" {
    } else if b == "" {
    } else if a[0] != b[0] {
      assert a[..0] == b[..0];
      assert a[0] < b[0] ==> TextLeq(a, b);
      forall i | 0 < i < |a| && i < |b|
        ensures a[..i] != b[..i]
      {
        assert a[..i][0] != b[..i][0];
      }
    } else {
      TextLeqIff(a[1..], b[1..]);
      forall i | 0 <= i < |a| - 1 && i < |b| - 1
        ensures a[1..][..i] == b[1..][..i] <==> a[..i + 1] == b[..i + 1]
      {
        assert a[..i + 1] == [a[0]] + a[1..][..i] && b[..i + 1] == [b[0]] + b[1..][..i];
        if a[..i + 1] == b[..i + 1] {
          assert a[1..][..i] == a[..i + 1][1..] && b[1..][..i] == b[..i + 1][1..];
        }
      }
      assert a <= b <==> a[1..] <= b[1..] by {
        assert a == [a[0]] + a[1..] && b == [b[0]] + b[1..];
      }
      if i :| 0 <= i < |a[1..]| && i < |b[1..]| && a[1..][..i] == b[1..][..i] && a[1..][i] < b[1..][i] {
        assert a[i + 1] < b[i + 1] && a[..i + 1] == b[..i + 1];
      }
      if i :| 0 <= i < |a| && i < |b| && a[..i] == b[..i] && a[i] < b[i] {
        assert i > 0 && a[1..][i - 1] < b[1..][i - 1];
      }
    }
  }

  /** The sample holds the earliest root of every tree it covers, one per tree, in order. */
  lemma SampleFacts(rows: seq<Row>, r: Root)
    requires r in EligibleRoots(rows)
    ensures var s := Sample(rows);
      InOrder(s) && DistinctTrees(s) && Covers(s, r)
  {
    var roots := EligibleRoots(rows);
    SortedFacts(roots);
    FirstOfTreesOrder(Sorted(roots));
    FirstOfTreesCovers(Sorted(roots));
    assert r in multiset(roots);
    assert r in multiset(Sorted(roots));
  }

  ghost predicate NoLater(a: Root, b: Root) {
    a == b || a.time < b.time || (a.time == b.time && TextLeq(a.id, b.id))
  }

  /** Said in times: the sample runs forward, and every tree is represented by a root no later than any of its roots. */
  lemma SampleRunsForward(rows: seq<Row>, r: Root)
    requires r in EligibleRoots(rows)
    ensures forall i, j :: 0 <= i < j < |Sample(rows)| ==> NoLater(Sample(rows)[i], Sample(rows)[j])
    ensures exists k :: 0 <= k < |Sample(rows)| && Sample(rows)[k].tree == r.tree && NoLater(Sample(rows)[k], r)
  {
    SampleFacts(rows, r);
    hide Sample, TextLeq, EligibleRoots;
    var s := Sample(rows);
    var k :| 0 <= k < |s| && s[k].tree == r.tree && (s[k] == r || NotAfter(s[k], r));
    assert NoLater(s[k], r);
    forall i, j | 0 <= i < j < |s|
      ensures NoLater(s[i], s[j])
    {
      assert NotAfter(s[i], s[j]);
    }
  }

  /** The row is an original, nonblank opening prompt, and the root has its fields. */
  predicate Opens(row: Row, r: Root) {
    && row.role == Prompter && !row.hasParent && !row.excluded && row.stamp == At(r.time)
    && row.id == Some(r.id) && r.id != "" && row.tree == Some(r.tree) && r.tree != "" && row.text == Some(r.text) && row.user == r.user
    && exists i :: 0 <= i < |r.text| && !IsSpace(r.text[i])
  }

  predicate Answers(row: Row, tree: string, time: int) {
    row.role == Assistant && row.hasParent && !row.excluded && row.tree == Some(tree) && tree != "" && row.stamp == At(time)
  }

  /** The roots considered are exactly those rows. */
  lemma {:induction false} EligibleIff(rows: seq<Row>, r: Root)
    ensures r in EligibleRoots(rows) <==> exists i :: 0 <= i < |rows| && Opens(rows[i], r)
  {
    if rows == [] {
    } else {
      var n := |rows| - 1;
      EligibleIff(rows[..n], r);
      assert rows == rows[..n] + [rows[n]];
      assert Opens(rows[n], r) <==> IsRoot(rows[n]) && rows[n].stamp.At? && RootOf(rows[n]) == r;
      hide Opens, IsRoot;
      if i :| 0 <= i < n && Opens(rows[..n][i], r) {
        assert Opens(rows[i], r);
      }
      if i :| 0 <= i < n && Opens(rows[i], r) {
        assert Opens(rows[..n][i], r);
      }
    }
  }

  /** The answers considered are exactly the kept assistant messages below a root, under their tree. */
  lemma {:induction false} RepliesIff(rows: seq<Row>, tree: string, time: int)
    ensures time in RepliesTo(rows, tree) <==> exists i :: 0 <= i < |rows| && Answers(rows[i], tree, time)
  {
    if rows == [] {
    } else {
      var n := |rows| - 1;
      RepliesIff(rows[..n], tree, time);
      assert rows == rows[..n] + [rows[n]];
      assert Answers(rows[n], tree, time) <==>
        IsReply(rows[n]) && rows[n].stamp.At? && rows[n].tree.value == tree && rows[n].stamp.instant == time;
      hide Answers, IsReply;
      if i :| 0 <= i < n && Answers(rows[..n][i], tree, time) {
        assert Answers(rows[i], tree, time);
      }
      if i :| 0 <= i < n && Answers(rows[i], tree, time) {
        assert Answers(rows[..n][i], tree, time);
      }
    }
  }
}
