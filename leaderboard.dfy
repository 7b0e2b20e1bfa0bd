/**
 * The leaderboard store: seven (name, time) entries kept in the preference store under
 * the keys "[i].name" and "[i].score", loaded and sorted when the menu starts, and
 * re-sorted, truncated and saved whenever a score is recorded.
 */
module Leaderboard {
  import opened UnityMath
  import opened Prefs

  /** The number of entries the board keeps and shows. */
  const EntryCount: nat := 7

  datatype ScoreEntry = ScoreEntry(name: string, score: Float)

  /** What a slot holds when the store has nothing for it. */
  const Placeholder := ScoreEntry("", PositiveInfinity)

  /** Seven placeholders: the board of a fresh store. */
  function Placeholders(): seq<ScoreEntry>
  {
    seq(EntryCount, _ => Placeholder)
  }

  // ---------------------------------------------------------------------------
  // Ordering and sorting

  /** The order the sort comparison imposes: by score, highest or lowest first. */
  datatype Order = HighestFirst | LowestFirst

  predicate InOrder(order: Order, a: ScoreEntry, b: ScoreEntry)
  {
    match order
    case HighestFirst => AtLeast(a.score, b.score)
    case LowestFirst => AtLeast(b.score, a.score)
  }

  predicate Sorted(order: Order, s: seq<ScoreEntry>)
  {
    forall i, j :: 0 <= i < j < |s| ==> InOrder(order, s[i], s[j])
  }

  function ScoresOf(s: seq<ScoreEntry>): (r: seq<Float>)
    ensures |r| == |s| && forall i :: 0 <= i < |s| ==> r[i] == s[i].score
  {
    seq(|s|, i requires 0 <= i < |s| => s[i].score)
  }

  lemma InOrderTransitive(order: Order, a: ScoreEntry, b: ScoreEntry, c: ScoreEntry)
    requires InOrder(order, a, b) && InOrder(order, b, c)
    ensures InOrder(order, a, c)
  {
  }

  lemma InOrderTotal(order: Order, a: ScoreEntry, b: ScoreEntry)
    ensures InOrder(order, a, b) || InOrder(order, b, a)
  {
  }

  /** Places `e` into `s` in front of the first entry it may precede. */
  function Insert(order: Order, s: seq<ScoreEntry>, e: ScoreEntry): (r: seq<ScoreEntry>)
    ensures |r| == |s| + 1
    ensures multiset(r) == multiset(s) + multiset{e}
  {
    if s == [] || InOrder(order, e, s[0]) then
      [e] + s
    else
      assert s == [s[0]] + s[1..];
      [s[0]] + Insert(order, s[1..], e)
  }

  /** Inserting into a sorted sequence keeps it sorted. */
  lemma {:induction false} InsertSorted(order: Order, s: seq<ScoreEntry>, e: ScoreEntry)
    requires Sorted(order, s)
    ensures Sorted(order, Insert(order, s, e))
  {
    if s == [] || InOrder(order, e, s[0]) {
      forall j | 0 < j < |s|
        ensures InOrder(order, e, s[j])
      {
        InOrderTransitive(order, e, s[0], s[j]);
      }
      PrependSorted(order, e, s);
    } else {
      var rest := Insert(order, s[1..], e);
      InsertSorted(order, s[1..], e);
      InOrderTotal(order, e, s[0]);
      forall j | 0 <= j < |rest|
        ensures InOrder(order, s[0], rest[j])
      {
        assert rest[j] in multiset(rest);
        if rest[j] != e {
          assert rest[j] in multiset(s[1..]);
          var m :| 0 <= m < |s[1..]| && s[1..][m] == rest[j];
          assert s[m + 1] == rest[j];
        }
      }
      PrependSorted(order, s[0], rest);
    }
  }

  lemma PrependSorted(order: Order, x: ScoreEntry, rest: seq<ScoreEntry>)
    requires Sorted(order, rest)
    requires forall j :: 0 <= j < |rest| ==> InOrder(order, x, rest[j])
    ensures Sorted(order, [x] + rest)
  {
    var r := [x] + rest;
    forall i, j | 0 <= i < j < |r|
      ensures InOrder(order, r[i], r[j])
    {
      assert r[j] == rest[j - 1];
      if i > 0 {
        assert r[i] == rest[i - 1];
      }
    }
  }

  /**
   * The list sort with the comparison `order`. The engine's sort is not stable, so only
   * the order of scores and the multiset of entries are promised, never the order of ties.
   */
  method SortEntries(order: Order, s: seq<ScoreEntry>) returns (r: seq<ScoreEntry>)
    ensures Sorted(order, r)
    ensures multiset(r) == multiset(s)
  {
    r := [];
    for i := 0 to |s|
      invariant Sorted(order, r)
      invariant multiset(r) == multiset(s[..i])
    {
      assert s[..i + 1] == s[..i] + [s[i]];
      InsertSorted(order, r, s[i]);
      r := Insert(order, r, s[i]);
    }
    assert s[..|s|] == s;
  }

  lemma AtLeastAntisymmetric(a: Float, b: Float)
    requires AtLeast(a, b) && AtLeast(b, a)
    ensures a == b
  {
  }

  lemma SortedTail(order: Order, s: seq<ScoreEntry>, k: nat)
    requires Sorted(order, s) && k < |s|
    ensures Sorted(order, s[..k] + s[k + 1..])
  {
    var t := s[..k] + s[k + 1..];
    forall i, j | 0 <= i < j < |t|
      ensures InOrder(order, t[i], t[j])
    {
      var i' := if i < k then i else i + 1;
      var j' := if j < k then j else j + 1;
      assert t[i] == s[i'] && t[j] == s[j'];
    }
  }

  lemma MultisetWithout(s: seq<ScoreEntry>, k: nat)
    requires k < |s|
    ensures multiset(s[..k] + s[k + 1..]) == multiset(s) - multiset{s[k]}
  {
    assert s == s[..k] + [s[k]] + s[k + 1..];
  }

  /** In a sorted sequence, every entry up to one with the first entry's score has that score. */
  lemma SortedPrefixSameScore(order: Order, b: seq<ScoreEntry>, k: nat)
    requires Sorted(order, b) && k < |b| && b[k].score == b[0].score
    ensures forall j :: 0 <= j <= k ==> b[j].score == b[0].score
  {
    forall j | 0 < j < k
      ensures b[j].score == b[0].score
    {
      assert InOrder(order, b[0], b[j]) && InOrder(order, b[j], b[k]);
      match order {
        case HighestFirst => AtLeastAntisymmetric(b[j].score, b[0].score);
        case LowestFirst => AtLeastAntisymmetric(b[j].score, b[0].score);
      }
    }
  }

  /** Removing an entry whose score equals all before it leaves the scores with the head dropped. */
  lemma ScoresWithout(b: seq<ScoreEntry>, k: nat)
    requires k < |b|
    requires forall j :: 0 <= j <= k ==> b[j].score == b[0].score
    ensures ScoresOf(b) == [b[0].score] + ScoresOf(b[..k] + b[k + 1..])
  {
    var b' := b[..k] + b[k + 1..];
    forall j | 0 <= j < |b|
      ensures ScoresOf(b)[j] == ([b[0].score] + ScoresOf(b'))[j]
    {
      if 0 < j <= k {
        assert b'[j - 1] == b[j - 1];
      } else if j > k {
        assert b'[j - 1] == b[j];
      }
    }
  }

  /** Two sorted arrangements of the same non-empty entries start with the same score. */
  lemma HeadsAgree(order: Order, a: seq<ScoreEntry>, b: seq<ScoreEntry>)
    requires Sorted(order, a) && Sorted(order, b) && |a| > 0 && |b| > 0
    requires multiset(a) == multiset(b)
    ensures a[0].score == b[0].score
  {
    assert a[0] in multiset(b);
    var k :| 0 <= k < |b| && b[k] == a[0];
    assert b[0] in multiset(a);
    var m :| 0 <= m < |a| && a[m] == b[0];
    if m != 0 && k != 0 {
      assert InOrder(order, a[0], a[m]) && InOrder(order, b[0], b[k]);
      match order {
        case HighestFirst => AtLeastAntisymmetric(a[0].score, b[0].score);
        case LowestFirst => AtLeastAntisymmetric(a[0].score, b[0].score);
      }
    }
  }

  /**
   * Two sorted arrangements of the same entries show the same sequence of scores: an
   * unstable sort may reorder ties, but never changes which score sits at which rank.
   */
  lemma {:induction false} SortedPermutationsAgreeOnScores(order: Order, a: seq<ScoreEntry>, b: seq<ScoreEntry>)
    requires Sorted(order, a) && Sorted(order, b)
    requires multiset(a) == multiset(b)
    ensures ScoresOf(a) == ScoresOf(b)
  {
    if |a| == 0 {
      assert |b| == |multiset(b)| == 0;
    } else {
      var k := MatchHead(a, b);
      HeadsAgree(order, a, b);
      SortedPrefixSameScore(order, b, k);
      ScoresWithout(b, k);
      SortedTail(order, b, k);
      assert Sorted(order, a[1..]);
      SortedPermutationsAgreeOnScores(order, a[1..], b[..k] + b[k + 1..]);
      assert ScoresOf(a) == [a[0].score] + ScoresOf(a[1..]);
    }
  }

  /** Where a[0] sits in a permutation b of a, and what is left of b without it. */
  lemma MatchHead(a: seq<ScoreEntry>, b: seq<ScoreEntry>) returns (k: nat)
    requires |a| > 0 && multiset(a) == multiset(b)
    ensures k < |b| && b[k] == a[0]
    ensures multiset(a[1..]) == multiset(b[..k] + b[k + 1..])
  {
    assert a[0] in multiset(b);
    k :| 0 <= k < |b| && b[k] == a[0];
    MultisetWithout(b, k);
    assert a == [a[0]] + a[1..];
    assert multiset(a[1..]) == multiset(a) - multiset{a[0]};
  }

  // ---------------------------------------------------------------------------
  // Preference keys

  function Digit(d: nat): char
    requires d < 10
  {
    "0123456789"[d]
  }

  /** The decimal text of a non-negative number, as int.ToString() writes it. */
  function DecimalString(n: nat): (r: string)
    ensures |r| >= 1
  {
    if n < 10 then [Digit(n)] else DecimalString(n / 10) + [Digit(n % 10)]
  }

  function NameKey(i: nat): string
  {
    "[" + DecimalString(i) + "].name"
  }

  function ScoreKey(i: nat): string
  {
    "[" + DecimalString(i) + "].score"
  }

  /** The keys of slots 0 .. n-1. */
  function SlotKeys(n: nat): set<string>
  {
    (set i: nat | i < n :: NameKey(i)) + (set i: nat | i < n :: ScoreKey(i))
  }

  /** Slot keys never collide: distinct slots and the two fields of a slot have distinct keys. */
  lemma SlotKeysDistinct(i: nat, j: nat)
    requires i < EntryCount && j < EntryCount
    ensures NameKey(i) != ScoreKey(j)
    ensures NameKey(i) == NameKey(j) ==> i == j
    ensures ScoreKey(i) == ScoreKey(j) ==> i == j
  {
    assert |NameKey(i)| == 8 && |ScoreKey(j)| == 9;
    assert NameKey(i)[1] == Digit(i) && NameKey(j)[1] == Digit(j);
    assert ScoreKey(i)[1] == Digit(i) && ScoreKey(j)[1] == Digit(j);
  }

  // ---------------------------------------------------------------------------
  // Loading and saving

  /** The entry that slot i of the store reads as, with ("", +infinity) for missing keys. */
  function StoredEntry(store: Store, i: nat): ScoreEntry
  {
    ScoreEntry(GetString(store, NameKey(i), ""), GetFloat(store, ScoreKey(i), PositiveInfinity))
  }

  /** The seven entries read from the store, in slot order. */
  function StoredEntries(store: Store): (r: seq<ScoreEntry>)
    ensures |r| == EntryCount
    ensures forall i :: 0 <= i < EntryCount ==>
      NameKey(i) !in store && ScoreKey(i) !in store ==> r[i] == Placeholder
  {
    seq(EntryCount, i requires 0 <= i < EntryCount => StoredEntry(store, i))
  }

  /** The store after writing the first n entries of s into slots 0 .. n-1. */
  function WriteSlots(store: Store, s: seq<ScoreEntry>, n: nat): Store
    requires n <= |s|
  {
    if n == 0 then store
    else WriteSlots(store, s, n - 1)[NameKey(n - 1) := StringPref(s[n - 1].name)]
                                    [ScoreKey(n - 1) := FloatPref(s[n - 1].score)]
  }

  lemma SlotKeysStep(n: nat)
    requires n > 0
    ensures SlotKeys(n) == SlotKeys(n - 1) + {NameKey(n - 1), ScoreKey(n - 1)}
  {
    var a := set i: nat | i < n :: NameKey(i);
    var b := set i: nat | i < n - 1 :: NameKey(i);
    assert a == b + {NameKey(n - 1)};
    var c := set i: nat | i < n :: ScoreKey(i);
    var d := set i: nat | i < n - 1 :: ScoreKey(i);
    assert c == d + {ScoreKey(n - 1)};
  }

  /** Writing slots 0 .. n-1 adds exactly their keys. */
  lemma {:induction false} WriteSlotsKeys(store: Store, s: seq<ScoreEntry>, n: nat)
    requires n <= |s|
    ensures WriteSlots(store, s, n).Keys == store.Keys + SlotKeys(n)
  {
    if n > 0 {
      WriteSlotsKeys(store, s, n - 1);
      SlotKeysStep(n);
    }
  }

  /** After writing slots 0 .. n-1, slot i holds entry i. */
  lemma {:induction false} WriteSlotsValues(store: Store, s: seq<ScoreEntry>, n: nat, i: nat)
    requires n <= |s| && n <= EntryCount && i < n
    ensures NameKey(i) in WriteSlots(store, s, n) && ScoreKey(i) in WriteSlots(store, s, n)
    ensures WriteSlots(store, s, n)[NameKey(i)] == StringPref(s[i].name)
    ensures WriteSlots(store, s, n)[ScoreKey(i)] == FloatPref(s[i].score)
  {
    SlotKeysDistinct(n - 1, n - 1);
    if i < n - 1 {
      WriteSlotsValues(store, s, n - 1, i);
      SlotKeysDistinct(i, n - 1);
      SlotKeysDistinct(n - 1, i);
    }
  }

  /** Writing slots 0 .. n-1 keeps every key that is not one of theirs. */
  lemma {:induction false} WriteSlotsFrame(store: Store, s: seq<ScoreEntry>, n: nat, k: string)
    requires n <= |s| && k in store && k !in SlotKeys(n)
    ensures k in WriteSlots(store, s, n) && WriteSlots(store, s, n)[k] == store[k]
  {
    if n > 0 {
      SlotKeysStep(n);
      WriteSlotsFrame(store, s, n - 1, k);
    }
  }

  /** Writing slots 0 .. n-1 sets exactly their keys and keeps every other key. */
  lemma WriteSlotsSpec(store: Store, s: seq<ScoreEntry>, n: nat)
    requires n <= |s| && n <= EntryCount
    ensures WriteSlots(store, s, n).Keys == store.Keys + SlotKeys(n)
    ensures forall i :: 0 <= i < n ==>
      WriteSlots(store, s, n)[NameKey(i)] == StringPref(s[i].name) &&
      WriteSlots(store, s, n)[ScoreKey(i)] == FloatPref(s[i].score)
    ensures forall k :: k in store && k !in SlotKeys(n) ==> WriteSlots(store, s, n)[k] == store[k]
  {
    WriteSlotsKeys(store, s, n);
    forall i | 0 <= i < n
      ensures NameKey(i) in WriteSlots(store, s, n) && ScoreKey(i) in WriteSlots(store, s, n)
      ensures WriteSlots(store, s, n)[NameKey(i)] == StringPref(s[i].name)
      ensures WriteSlots(store, s, n)[ScoreKey(i)] == FloatPref(s[i].score)
    {
      WriteSlotsValues(store, s, n, i);
    }
    forall k | k in store && k !in SlotKeys(n)
      ensures k in WriteSlots(store, s, n) && WriteSlots(store, s, n)[k] == store[k]
    {
      WriteSlotsFrame(store, s, n, k);
    }
  }

  /** Saving seven entries and reading them back gives the same entries in the same slots. */
  lemma LoadAfterSave(store: Store, s: seq<ScoreEntry>)
    requires |s| == EntryCount
    ensures StoredEntries(WriteSlots(store, s, EntryCount)) == s
  {
    WriteSlotsSpec(store, s, EntryCount);
    var w := WriteSlots(store, s, EntryCount);
    forall i | 0 <= i < EntryCount
      ensures StoredEntries(w)[i] == s[i]
    {
      WriteSlotsValues(store, s, EntryCount, i);
    }
  }

  /**
   * Saving a sorted board and starting again from the saved store gives back the same
   * entries with the same sequence of scores, whichever way the sort arranges ties.
   */
  lemma ReloadRestoresBoard(store: Store, board: seq<ScoreEntry>, reloaded: seq<ScoreEntry>)
    requires |board| == EntryCount && Sorted(HighestFirst, board)
    requires Sorted(HighestFirst, reloaded)
    requires multiset(reloaded) == multiset(StoredEntries(WriteSlots(store, board, EntryCount)))
    ensures multiset(reloaded) == multiset(board)
    ensures ScoresOf(reloaded) == ScoresOf(board)
  {
    LoadAfterSave(store, board);
    SortedPermutationsAgreeOnScores(HighestFirst, reloaded, board);
  }

  // ---------------------------------------------------------------------------
  // Recording a score

  /**
   * `after` is what recording `e` into `before` leaves: the first |before| entries of
   * some sorted arrangement of before + [e]; the last entry of that arrangement is dropped.
   */
  ghost predicate RecordedFrom(order: Order, before: seq<ScoreEntry>, e: ScoreEntry, after: seq<ScoreEntry>)
  {
    exists t :: Sorted(order, t) && multiset(t) == multiset(before) + multiset{e} &&
      |t| == |before| + 1 && after == t[..|before|]
  }

  /**
   * Recording keeps the length, keeps the board sorted, and drops exactly one entry of
   * before + [e], one that every kept entry may precede (for HighestFirst: the lowest score).
   */
  lemma RecordDropsLast(order: Order, before: seq<ScoreEntry>, e: ScoreEntry, after: seq<ScoreEntry>)
    requires RecordedFrom(order, before, e, after)
    ensures |after| == |before| && Sorted(order, after)
    ensures multiset(after) <= multiset(before) + multiset{e}
    ensures |multiset(before) + multiset{e} - multiset(after)| == 1
    ensures forall d :: d in multiset(before) + multiset{e} - multiset(after) ==>
      forall k :: 0 <= k < |after| ==> InOrder(order, after[k], d)
  {
    var t :| Sorted(order, t) && multiset(t) == multiset(before) + multiset{e} &&
      |t| == |before| + 1 && after == t[..|before|];
    var n := |before|;
    assert t == after + [t[n]];
    assert multiset(t) == multiset(after) + multiset{t[n]};
    assert multiset(before) + multiset{e} - multiset(after) == multiset{t[n]};
    forall i, j | 0 <= i < j < |after|
      ensures InOrder(order, after[i], after[j])
    {
      assert after[i] == t[i] && after[j] == t[j];
    }
    forall k | 0 <= k < |after|
      ensures InOrder(order, after[k], t[n])
    {
      assert after[k] == t[k];
    }
  }

  lemma LastIsNewEntry(t: seq<ScoreEntry>, e: ScoreEntry)
    requires Sorted(HighestFirst, t) && |t| > 0 && e.score.Finite? && e in t
    requires t[|t| - 1] == e || t[|t| - 1] == Placeholder
    ensures t[|t| - 1] == e
  {
    var p :| 0 <= p < |t| && t[p] == e;
    if p < |t| - 1 {
      assert InOrder(HighestFirst, t[p], t[|t| - 1]);
    }
  }

  /**
   * The recorded board as written: on a fresh board of seven +infinity placeholders,
   * recording any finite time leaves the seven placeholders, so the time is lost.
   */
  lemma FreshBoardDropsEveryTime(e: ScoreEntry, after: seq<ScoreEntry>)
    requires e.score.Finite?
    requires RecordedFrom(HighestFirst, Placeholders(), e, after)
    ensures after == Placeholders()
  {
    var t :| Sorted(HighestFirst, t) && multiset(t) == multiset(Placeholders()) + multiset{e} &&
      |t| == EntryCount + 1 && after == t[..EntryCount];
    OnlyPlaceholders();
    var n := EntryCount;
    assert t[n] in multiset(t);
    assert e in multiset(t);
    LastIsNewEntry(t, e);
    assert t == after + [e];
    assert multiset(t) == multiset(after) + multiset{e};
    assert multiset(after) == multiset(t) - multiset{e};
    assert multiset(Placeholders()) == multiset(t) - multiset{e};
    forall k | 0 <= k < EntryCount
      ensures after[k] == Placeholders()[k]
    {
      assert after[k] in multiset(after);
    }
  }

  lemma OnlyPlaceholders()
    ensures forall x :: x in multiset(Placeholders()) ==> x == Placeholder
  {
  }

  /**
   * The intended recording: the fastest times first, so the slowest entry is the one
   * dropped. This uses the opposite comparison to the one the source hands to the sort.
   */
  method RecordFastestFirst(before: seq<ScoreEntry>, e: ScoreEntry) returns (after: seq<ScoreEntry>)
    requires |before| == EntryCount
    ensures RecordedFrom(LowestFirst, before, e, after)
    ensures |after| == EntryCount && Sorted(LowestFirst, after)
  {
    var t := SortEntries(LowestFirst, before + [e]);
    assert |t| == |multiset(t)| == EntryCount + 1;
    after := t[..EntryCount];
    RecordDropsLast(LowestFirst, before, e, after);
  }

  /** With fastest-first recording, a finite time always enters a board that still has a placeholder. */
  lemma FastestFirstAdmitsTime(before: seq<ScoreEntry>, e: ScoreEntry, after: seq<ScoreEntry>)
    requires e.score.Finite? && Placeholder in before
    requires RecordedFrom(LowestFirst, before, e, after)
    ensures e in after
  {
    var t :| Sorted(LowestFirst, t) && multiset(t) == multiset(before) + multiset{e} &&
      |t| == |before| + 1 && after == t[..|before|];
    var n := |before|;
    assert Placeholder in multiset(t);
    var k :| 0 <= k < |t| && t[k] == Placeholder;
    assert e in multiset(t);
    var p :| 0 <= p < |t| && t[p] == e;
    assert p < n;
    assert after[p] == e;
  }

  // ---------------------------------------------------------------------------
  // Display

  /** The time column: blank, or the elapsed time (its mm:ss:ff text is not modelled). */
  datatype TimeText = Blank | Elapsed(seconds: real)

  datatype Row = Row(rank: string, name: string, time: TimeText)

  // ---------------------------------------------------------------------------
  // The store object

  class LeaderboardDatabase {
    var scores: seq<ScoreEntry>

    /** After start-up the board always holds seven entries, highest score first. */
    ghost predicate Valid()
      reads this
    {
      |scores| == EntryCount && Sorted(HighestFirst, scores)
    }

    /** Start: an empty list filled from the store and sorted. */
    constructor Start(store: Store)
      ensures Valid()
      ensures multiset(scores) == multiset(StoredEntries(store))
    {
      scores := [];
      new;
      LoadScores(store);
    }

    /** Appends the seven stored entries to the list, then sorts it. */
    method LoadScores(store: Store)
      modifies this
      ensures |scores| == |old(scores)| + EntryCount
      ensures Sorted(HighestFirst, scores)
      ensures multiset(scores) == multiset(old(scores) + StoredEntries(store))
    {
      var i := 0;
      while i < EntryCount
        invariant 0 <= i <= EntryCount
        invariant scores == old(scores) + StoredEntries(store)[..i]
      {
        var entry := ScoreEntry(GetString(store, NameKey(i), ""), GetFloat(store, ScoreKey(i), PositiveInfinity));
        assert StoredEntries(store)[..i + 1] == StoredEntries(store)[..i] + [entry];
        scores := scores + [entry];
        i := i + 1;
      }
      assert StoredEntries(store)[..EntryCount] == StoredEntries(store);
      SortScores();
    }

    /** Sorts the list by score, highest first (the comparison passed is b.Score.CompareTo(a.Score)). */
    method SortScores()
      modifies this
      ensures |scores| == |old(scores)|
      ensures Sorted(HighestFirst, scores)
      ensures multiset(scores) == multiset(old(scores))
    {
      scores := SortEntries(HighestFirst, scores);
      assert |scores| == |multiset(scores)|;
    }

    /** Writes the first seven entries to slots 0 .. 6; every other key is left as it was. */
    method SaveScores(store: Store) returns (saved: Store)
      requires |scores| >= EntryCount
      ensures saved == WriteSlots(store, scores, EntryCount)
      ensures saved.Keys == store.Keys + SlotKeys(EntryCount)
      ensures forall i :: 0 <= i < EntryCount ==>
        saved[NameKey(i)] == StringPref(scores[i].name) && saved[ScoreKey(i)] == FloatPref(scores[i].score)
      ensures forall k :: k in store && k !in SlotKeys(EntryCount) ==> saved[k] == store[k]
    {
      saved := store;
      for i := 0 to EntryCount
        invariant saved == WriteSlots(store, scores, i)
      {
        saved := saved[NameKey(i) := StringPref(scores[i].name)][ScoreKey(i) := FloatPref(scores[i].score)];
      }
      WriteSlotsSpec(store, scores, EntryCount);
    }

    /** Adds the entry, sorts, removes the last entry and saves the board. */
    method RecordScore(playerName: string, playerTime: Float, store: Store) returns (saved: Store)
      requires Valid()
      modifies this
      ensures Valid()
      ensures RecordedFrom(HighestFirst, old(scores), ScoreEntry(playerName, playerTime), scores)
      ensures saved == WriteSlots(store, scores, EntryCount)
    {
      ghost var before := scores;
      var entry := ScoreEntry(playerName, playerTime);
      scores := scores + [entry];
      SortScores();
      ghost var t := scores;
      scores := scores[..|scores| - 1];
      assert Sorted(HighestFirst, t) && multiset(t) == multiset(before) + multiset{entry};
      assert RecordedFrom(HighestFirst, before, entry, scores);
      saved := SaveScores(store);
    }

    /** The seven rows shown: rank i+1, and a blank name and time exactly for +infinity. */
    method DisplayLeaderboard() returns (rows: seq<Row>)
      requires |scores| >= EntryCount
      ensures |rows| == EntryCount
      ensures forall i :: 0 <= i < EntryCount ==> rows[i].rank == DecimalString(i + 1)
      ensures forall i :: 0 <= i < EntryCount ==>
        (rows[i].time == Blank <==> scores[i].score == PositiveInfinity)
      ensures forall i :: 0 <= i < EntryCount ==>
        rows[i].name == (if scores[i].score == PositiveInfinity then "" else scores[i].name)
      ensures forall i :: 0 <= i < EntryCount && scores[i].score.Finite? ==>
        rows[i].time == Elapsed(scores[i].score.value)
    {
      rows := [];
      for i := 0 to EntryCount
        invariant |rows| == i
        invariant forall j :: 0 <= j < i ==> rows[j].rank == DecimalString(j + 1)
        invariant forall j :: 0 <= j < i ==>
          rows[j] == (if scores[j].score == PositiveInfinity then Row(DecimalString(j + 1), "", Blank)
                      else Row(DecimalString(j + 1), scores[j].name, Elapsed(scores[j].score.value)))
      {
        var entry := scores[i];
        var row;
        if entry.score != PositiveInfinity {
          row := Row(DecimalString(i + 1), entry.name, Elapsed(entry.score.value));
        } else {
          row := Row(DecimalString(i + 1), "", Blank);
        }
        rows := rows + [row];
      }
    }
  }
}
