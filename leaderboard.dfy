/** The two leaderboard queries: a full scan of the collection, sorted by snap
    score, or by quiz score and then time taken. MongoDB does the sorting in
    the server; here it is an insertion sort over the scan, specified by the
    order it produces and by being a permutation of the stored records. */
module Leaderboard {
  import opened Schema

  /** The sort specifications the two queries pass to MongoDB. */
  datatype Order =
    | BySnapScore  // { snapScore: -1 }
    | ByQuizScore  // { "quizScore.score": -1, "quizScore.timeTaken": 1 }

  /** `x` sorts strictly below `y` in MongoDB's comparison order, where an
      absent field sorts below every number. */
  predicate Below(x: Option<int>, y: Option<int>)
  {
    match (x, y)
    case (None, Some(_)) => true
    case (Some(a), Some(b)) => a < b
    case _ => false
  }

  /** `a` may be listed ahead of `b` under `order`. */
  predicate RanksFirst(order: Order, a: Doc, b: Doc)
  {
    match order
    case BySnapScore => a.user.snapScore >= b.user.snapScore
    case ByQuizScore =>
      var qa, qb := a.user.quizScore, b.user.quizScore;
      || Below(qb.score, qa.score)
      || (qa.score == qb.score && !Below(qb.timeTaken, qa.timeTaken))
  }

  lemma RanksFirstTotal(order: Order, a: Doc, b: Doc)
    ensures RanksFirst(order, a, b) || RanksFirst(order, b, a)
  {
  }

  lemma RanksFirstTransitive(order: Order, a: Doc, b: Doc, c: Doc)
    requires RanksFirst(order, a, b) && RanksFirst(order, b, c)
    ensures RanksFirst(order, a, c)
  {
  }

  /** Every earlier entry may be listed ahead of every later one. */
  predicate Sorted(order: Order, s: seq<Doc>)
  {
    forall i, j :: 0 <= i < j < |s| ==> RanksFirst(order, s[i], s[j])
  }

  /** `docs` lists exactly the stored documents, each once: every entry is a
      stored record under its own id, every stored record is listed, and
      there are as many entries as records (so none is listed twice). */
  ghost predicate Lists(docs: seq<Doc>, t: Table)
  {
    && |docs| == |t|
    && (forall i :: 0 <= i < |docs| ==> docs[i].id in t && t[docs[i].id] == docs[i].user)
    && (forall id :: id in t ==> Doc(id, t[id]) in docs)
  }

  lemma {:induction false} PrependSorted(order: Order, d: Doc, s: seq<Doc>)
    requires Sorted(order, s)
    requires s != [] ==> RanksFirst(order, d, s[0])
    ensures Sorted(order, [d] + s)
  {
    var r := [d] + s;
    forall i, j | 0 <= i < j < |r| ensures RanksFirst(order, r[i], r[j]) {
      if i == 0 && j > 1 {
        RanksFirstTransitive(order, d, s[0], s[j - 1]);
      }
    }
  }

  /** Inserts `d` into a sorted list, keeping it sorted. */
  function Insert(order: Order, d: Doc, s: seq<Doc>): (r: seq<Doc>)
    requires Sorted(order, s)
    ensures Sorted(order, r)
    ensures multiset(r) == multiset(s) + multiset{d}
  {
    if s == [] then
      [d]
    else if RanksFirst(order, d, s[0]) then
      PrependSorted(order, d, s);
      [d] + s
    else
      RanksFirstTotal(order, d, s[0]);
      var rest := Insert(order, d, s[1..]);
      assert s == [s[0]] + s[1..];
      assert rest[0] in multiset(rest);
      PrependSorted(order, s[0], rest);
      [s[0]] + rest
  }

  /** Insertion sort: a sorted permutation of `s`. */
  function Sort(order: Order, s: seq<Doc>): (r: seq<Doc>)
    ensures Sorted(order, r)
    ensures multiset(r) == multiset(s)
  {
    if s == [] then
      []
    else
      assert s == [s[0]] + s[1..];
      Insert(order, s[0], Sort(order, s[1..]))
  }

  lemma {:induction false} LeastIdExists(ids: set<UserId>)
    requires ids != {}
    ensures exists k :: IsLeastId(k, ids)
    decreases ids
  {
    var k :| k in ids;
    var rest := ids - {k};
    if rest == {} {
      forall j | j in ids ensures k <= j {
        assert j !in rest;
      }
      assert IsLeastId(k, ids);
    } else {
      LeastIdExists(rest);
      var m :| IsLeastId(m, rest);
      var least := if k < m then k else m;
      forall j | j in ids ensures least <= j {
        if j != k {
          assert j in rest;
        }
      }
      assert IsLeastId(least, ids);
    }
  }

  predicate IsLeastId(k: UserId, ids: set<UserId>)
  {
    k in ids && forall j :: j in ids ==> k <= j
  }

  lemma LeastIdUnique(ids: set<UserId>)
    ensures forall a, b :: IsLeastId(a, ids) && IsLeastId(b, ids) ==> a == b
  {
  }

  /** Listing the least id first, then the rest of the collection. */
  lemma ScanStep(t: Table, k: UserId, tail: seq<Doc>)
    requires IsLeastId(k, t.Keys)
    requires Lists(tail, t - {k})
    requires forall i, j :: 0 <= i < j < |tail| ==> tail[i].id < tail[j].id
    ensures Lists([Doc(k, t[k])] + tail, t)
    ensures var r := [Doc(k, t[k])] + tail; forall i, j :: 0 <= i < j < |r| ==> r[i].id < r[j].id
  {
    RemoveOneSize(t, k);
    ScanStepSound(t, k, tail);
    ScanStepComplete(t, k, tail);
  }

  lemma RemoveOneSize(t: Table, k: UserId)
    requires k in t
    ensures |t - {k}| == |t| - 1
  {
    assert (t - {k}).Keys == t.Keys - {k};
  }

  lemma ScanStepSound(t: Table, k: UserId, tail: seq<Doc>)
    requires IsLeastId(k, t.Keys)
    requires forall i :: 0 <= i < |tail| ==> tail[i].id in t - {k} && (t - {k})[tail[i].id] == tail[i].user
    requires forall i, j :: 0 <= i < j < |tail| ==> tail[i].id < tail[j].id
    ensures var r := [Doc(k, t[k])] + tail;
            forall i :: 0 <= i < |r| ==> r[i].id in t && t[r[i].id] == r[i].user
    ensures var r := [Doc(k, t[k])] + tail; forall i, j :: 0 <= i < j < |r| ==> r[i].id < r[j].id
  {
    var r := [Doc(k, t[k])] + tail;
    forall i | 0 < i < |r| ensures r[i] == tail[i - 1] && k < r[i].id {
      assert tail[i - 1].id in t && tail[i - 1].id != k;
    }
  }

  lemma ScanStepComplete(t: Table, k: UserId, tail: seq<Doc>)
    requires k in t
    requires forall id :: id in t - {k} ==> Doc(id, (t - {k})[id]) in tail
    ensures forall id :: id in t ==> Doc(id, t[id]) in [Doc(k, t[k])] + tail
  {
    forall id | id in t ensures Doc(id, t[id]) in [Doc(k, t[k])] + tail {
      if id != k {
        assert id in t - {k};
      }
    }
  }

  /** The collection scan behind `User.find()`: every stored record once,
      under its own id. MongoDB promises no order here; the model picks
      ascending id order, and no leaderboard contract relies on it. */
  function Scan(t: Table): (r: seq<Doc>)
    ensures Lists(r, t)
    ensures forall i, j :: 0 <= i < j < |r| ==> r[i].id < r[j].id
    decreases |t|
  {
    if |t| == 0 then
      []
    else
      LeastIdExists(t.Keys);
      LeastIdUnique(t.Keys);
      var k :| IsLeastId(k, t.Keys);
      assert (t - {k}).Keys == t.Keys - {k};
      var tail := Scan(t - {k});
      ScanStep(t, k, tail);
      [Doc(k, t[k])] + tail
  }

  lemma ListsPermutation(a: seq<Doc>, b: seq<Doc>, t: Table)
    requires Lists(a, t)
    requires multiset(a) == multiset(b)
    ensures Lists(b, t)
  {
    assert |a| == |multiset(a)| == |multiset(b)| == |b|;
    forall i | 0 <= i < |b| ensures b[i].id in t && t[b[i].id] == b[i].user {
      assert b[i] in multiset(b);
      assert b[i] in a;
    }
    forall id | id in t ensures Doc(id, t[id]) in b {
      assert Doc(id, t[id]) in multiset(a);
    }
  }

  /** A full scan sorted by `order`. */
  function Board(order: Order, t: Table): (r: seq<Doc>)
    ensures Lists(r, t)
    ensures Sorted(order, r)
  {
    var scan := Scan(t);
    var r := Sort(order, scan);
    ListsPermutation(scan, r, t);
    r
  }

  /** `GET /api/users/sort-by-snap-score`: every record once, snap scores
      non-increasing. */
  function SnapBoard(t: Table): (r: seq<Doc>)
    ensures Lists(r, t)
    ensures forall i, j :: 0 <= i < j < |r| ==> r[i].user.snapScore >= r[j].user.snapScore
  {
    Board(BySnapScore, t)
  }

  /** What the quiz order says about two records whose fields are set. */
  lemma QuizOrderMeaning(a: Doc, b: Doc)
    requires RanksFirst(ByQuizScore, a, b)
    ensures a.user.quizScore.score.Some? && b.user.quizScore.score.Some? ==>
      a.user.quizScore.score.value >= b.user.quizScore.score.value
    ensures
      && a.user.quizScore.score == b.user.quizScore.score
      && a.user.quizScore.timeTaken.Some? && b.user.quizScore.timeTaken.Some?
      ==> a.user.quizScore.timeTaken.value <= b.user.quizScore.timeTaken.value
  {
  }

  /** `GET /api/users/sort-by-quiz-score`: every record once, quiz scores
      non-increasing, and among equal scores times taken non-decreasing (for
      the records in which those fields are set). */
  function QuizBoard(t: Table): (r: seq<Doc>)
    ensures Lists(r, t)
    ensures forall i, j ::
      0 <= i < j < |r| && r[i].user.quizScore.score.Some? && r[j].user.quizScore.score.Some? ==>
        r[i].user.quizScore.score.value >= r[j].user.quizScore.score.value
    ensures forall i, j ::
      && 0 <= i < j < |r|
      && r[i].user.quizScore.score == r[j].user.quizScore.score
      && r[i].user.quizScore.timeTaken.Some? && r[j].user.quizScore.timeTaken.Some?
      ==> r[i].user.quizScore.timeTaken.value <= r[j].user.quizScore.timeTaken.value
  {
    var r := Board(ByQuizScore, t);
    QuizBoardOrdered(r);
    r
  }

  lemma QuizBoardOrdered(r: seq<Doc>)
    requires Sorted(ByQuizScore, r)
    ensures forall i, j ::
      0 <= i < j < |r| && r[i].user.quizScore.score.Some? && r[j].user.quizScore.score.Some? ==>
        r[i].user.quizScore.score.value >= r[j].user.quizScore.score.value
    ensures forall i, j ::
      && 0 <= i < j < |r|
      && r[i].user.quizScore.score == r[j].user.quizScore.score
      && r[i].user.quizScore.timeTaken.Some? && r[j].user.quizScore.timeTaken.Some?
      ==> r[i].user.quizScore.timeTaken.value <= r[j].user.quizScore.timeTaken.value
  {
    forall i, j | 0 <= i < j < |r| {
      QuizOrderMeaning(r[i], r[j]);
    }
  }
}
