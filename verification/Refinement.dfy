/**
 The protocol's view of the store, refined by the store on disk: what the protocol says a load finds, or may find
 after a power loss, is what the directories hold, or may come back with.
 */
module Refinement {
  import opened Wrappers
  import opened Records
  import opened Protocol
  import opened Invariants
  import Codec
  import Disk

  predicate Like(x: Cell, w: Disk.View) {
    match x
    case Empty => w.Nothing?
    case Rec(c) => w == Disk.Has(c)
    case Newer(_) => w.TooNew?
    case Bad(_) => w.Invalid?
    case Aside(_) => w.Refused?
  }

  ghost predicate MayBe(s: Sys, w: Disk.View) {
    exists x | x in Possible(s) :: Like(x, w)
  }

  /** Every record of the shelf has its copy in the archive directory. */
  predicate Copied(v: Disk.Volume, h: Disk.Dir, m: Shelf) {
    forall r | r in m :: m[r].runId == r && Disk.HasCopy(v, h, m[r])
  }

  ghost predicate MayHold(s: Sys, v: Disk.Volume, h: Disk.Dir) {
    exists m | m in Shelves(s) :: Copied(v, h, m)
  }

  /** What is seen is what the protocol says, and what may come back is one of the things it says may. */
  ghost predicate Matches(s: Sys, v: Disk.Volume) {
    && Disk.Sane(v) && Disk.Rooted(v)
    && Disk.ReadsFile(v, v.Visible(Disk.InState)) && Like(s.cell, Disk.Sees(v))
    && (forall d | d in v.state :: Disk.ReadsFile(v, d) && MayBe(s, Disk.Seen(v, d)))
    && Copied(v, v.Visible(Disk.InHistory), s.history)
    && (forall h | h in v.history :: MayHold(s, v, h))
  }

  /** Nothing of the store differs. */
  ghost predicate SameStore(s: Sys, t: Sys) {
    Same(t.cell, s.cell) && Same(t.past, s.past) && Same(t.history, s.history) && Same(t.fading, s.fading)
  }

  lemma StoreCarries(s: Sys, t: Sys, v: Disk.Volume)
    requires Matches(s, v) && SameStore(s, t)
    ensures Matches(t, v)
  {
    hide Disk.Sane, Disk.Seen, Disk.HasCopy, Copied;
    assert Possible(t) == Possible(s) && Shelves(t) == Shelves(s);
    forall d | d in v.state ensures MayBe(t, Disk.Seen(v, d)) {
      assert MayBe(s, Disk.Seen(v, d));
    }
    forall h | h in v.history ensures MayHold(t, v, h) {
      assert MayHold(s, v, h);
    }
  }

  /** A freshly installed store. */
  function NewVolume(): Disk.Volume {
    Disk.Volume(map[], [map[Disk.HistoryDir := 0]], [map[]], 1)
  }

  lemma NewMatches(s: Sys)
    requires Start(s)
    ensures Matches(s, NewVolume())
  {
    var v := NewVolume();
    assert Like(s.cell, Disk.Nothing);
    assert s.cell in Possible(s) && s.history in Shelves(s);
    assert Copied(v, map[], s.history);
  }

  lemma ShelvesCarry(s: Sys, t: Sys, v: Disk.Volume, u: Disk.Volume)
    requires Disk.SameShelves(v, u) && v.history != []
    requires Copied(v, v.Visible(Disk.InHistory), s.history) && forall h | h in v.history :: MayHold(s, v, h)
    requires Same(t.history, s.history) && Same(t.fading, s.fading)
    ensures Copied(u, u.Visible(Disk.InHistory), t.history) && forall h | h in u.history :: MayHold(t, u, h)
  {
    hide Codec.ToDict;
    forall h | h in u.history ensures MayHold(t, u, h) {
      assert MayHold(s, v, h);
      var m :| m in Shelves(s) && Copied(v, h, m);
      assert Copied(u, h, m);
    }
  }

  /** A write that was cut short before it showed, or one that changes nothing for a load. */
  lemma QuietMatches(s: Sys, v: Disk.Volume, u: Disk.Volume, w: Disk.View)
    requires Matches(s, v) && Disk.Sane(u) && Disk.Rooted(u) && Disk.SameShelves(v, u) && Disk.Widens(v, u, w)
    requires Disk.ReadsFile(u, u.Visible(Disk.InState)) && Disk.Sees(u) == Disk.Sees(v) && MayBe(s, w)
    ensures Matches(s, u)
  {
    hide Disk.Seen, Disk.HasCopy, Disk.DirOk, Like;
    ShelvesCarry(s, s, v, u);
    forall d | d in u.state ensures Disk.ReadsFile(u, d) && MayBe(s, Disk.Seen(u, d)) {
      if Disk.Seen(u, d) != w {
        var o :| o in v.state && Disk.StemsFrom(v, o, u, d);
        assert MayBe(s, Disk.Seen(v, o));
      }
    }
  }

  /** A save cut short before it showed. */
  lemma UnwrittenMatches(s: Sys, v: Disk.Volume, u: Disk.Volume)
    requires Matches(s, v) && Disk.Sane(u) && Disk.Rooted(u) && Disk.SameShelves(v, u)
    requires forall d | d in u.state :: Disk.Stems(v, u, d)
    requires Disk.ReadsFile(u, u.Visible(Disk.InState)) && Disk.Sees(u) == Disk.Sees(v)
    ensures Matches(s, u)
  {
    hide Disk.Seen, Disk.HasCopy, Disk.DirOk, Like, Copied, MayHold;
    assert MayBe(s, Disk.Sees(v)) by {
      assert s.cell in Possible(s);
    }
    assert Disk.Widens(v, u, Disk.Sees(v));
    QuietMatches(s, v, u, Disk.Sees(v));
  }

  /** A write that shows: what may come back is what might before, or the new. */
  lemma WiderMatches(s: Sys, v: Disk.Volume, t: Sys, u: Disk.Volume, w: Disk.View)
    requires Matches(s, v) && Disk.Sane(u) && Disk.Rooted(u) && Disk.SameShelves(v, u) && Disk.Widens(v, u, w)
    requires Disk.ReadsFile(u, u.Visible(Disk.InState)) && Disk.Sees(u) == w && Like(t.cell, w)
    requires t.past == Older(s, false) && Same(t.history, s.history) && Same(t.fading, s.fading)
    ensures Matches(t, u)
  {
    hide Disk.Seen, Disk.HasCopy, Disk.DirOk, Like;
    ShelvesCarry(s, t, v, u);
    forall d | d in u.state ensures Disk.ReadsFile(u, d) && MayBe(t, Disk.Seen(u, d)) {
      if Disk.Seen(u, d) == w {
        assert t.cell in Possible(t);
      } else {
        var o :| o in v.state && Disk.StemsFrom(v, o, u, d);
        assert MayBe(s, Disk.Seen(v, o));
        var x :| x in Possible(s) && Like(x, Disk.Seen(v, o));
        assert x in Possible(t);
      }
    }
  }

  /** A write that returned: only the new can be found. */
  lemma OnlyMatches(s: Sys, v: Disk.Volume, t: Sys, u: Disk.Volume, w: Disk.View)
    requires Matches(s, v) && Disk.Sane(u) && Disk.Rooted(u) && Disk.SameShelves(v, u) && Disk.Only(u, w)
    requires Like(t.cell, w) && Same(t.history, s.history) && Same(t.fading, s.fading)
    ensures Matches(t, u)
  {
    hide Disk.Seen, Disk.HasCopy, Disk.DirOk, Like;
    ShelvesCarry(s, t, v, u);
    assert t.cell in Possible(t);
    assert u.Visible(Disk.InState) in u.state;
  }

  /** Under a readable record, nothing is quarantined, whatever comes back. */
  lemma MatchesClean(s: Sys, v: Disk.Volume)
    requires Matches(s, v) && PastOk(s) && !s.cell.Unreadable()
    ensures Disk.Clean(v)
  {
    hide Disk.Sane, CellOk, Disk.HasCopy, Copied, Disk.Parse;
    forall d | d in v.state ensures !Disk.Quarantined(d) {
      assert MayBe(s, Disk.Seen(v, d));
    }
  }

  lemma ShelfWith(v: Disk.Volume, u: Disk.Volume, h: Disk.Dir, m: Shelf, c: CycleState)
    requires v.history != [] && Disk.NewCopies(v, u, h, c) && Copied(v, v.Visible(Disk.InHistory), m)
    ensures Copied(u, h, m[c.runId := c])
  {
    hide Disk.HasCopy;
  }

  lemma SameShelf(v: Disk.Volume, o: Disk.Dir, u: Disk.Volume, h: Disk.Dir, m: Shelf)
    requires Disk.SameCopies(v, o, u, h) && Copied(v, o, m)
    ensures Copied(u, h, m)
  {
    hide Disk.HasCopy;
  }

  /** The state directory is as it was; the archive is what it may be. */
  lemma StateCarries(s: Sys, v: Disk.Volume, t: Sys, u: Disk.Volume)
    requires Matches(s, v) && Disk.Sane(u) && u.state == v.state && Same(t.cell, s.cell) && Same(t.past, s.past)
    requires forall i | i in v.files :: i in u.files && u.files[i] == v.files[i]
    requires Copied(u, u.Visible(Disk.InHistory), t.history) && forall h | h in u.history :: MayHold(t, u, h)
    ensures Matches(t, u)
  {
    hide Disk.DirOk, Disk.HasCopy, Like, Codec.FromDict, Copied;
    assert Possible(t) == Possible(s);
    forall d | d in u.state ensures Disk.ReadsFile(u, d) && MayBe(t, Disk.Seen(u, d)) {
      assert MayBe(s, Disk.Seen(v, d));
      assert Disk.Seen(u, d) == Disk.Seen(v, d);
    }
    assert v.Visible(Disk.InState) in v.state;
  }

  /** What a copy cut short, or a copy in place, makes of the archive. */
  lemma PutMatches(s: Sys, v: Disk.Volume, t: Sys, u: Disk.Volume, c: CycleState, replaced: bool)
    requires Matches(s, v) && Disk.Sane(u) && u.state == v.state && Same(t.cell, s.cell) && Same(t.past, s.past)
    requires forall i | i in v.files :: i in u.files && u.files[i] == v.files[i]
    requires forall h | h in u.history :: Disk.OldOrNewCopies(v, u, h, c)
    requires if replaced then Disk.NewCopies(v, u, u.Visible(Disk.InHistory), c)
             else Disk.SameCopies(v, v.Visible(Disk.InHistory), u, u.Visible(Disk.InHistory))
    requires Same(t.history, if replaced then s.history[c.runId := c] else s.history)
    requires Shelves(t) >= Shelves(s) + {s.history[c.runId := c]}
    ensures Matches(t, u)
  {
    hide Disk.DirOk, Disk.HasCopy, Disk.SameCopies, Disk.NewCopies, Like, Disk.Seen, Copied;
    if replaced {
      ShelfWith(v, u, u.Visible(Disk.InHistory), s.history, c);
    } else {
      SameShelf(v, v.Visible(Disk.InHistory), u, u.Visible(Disk.InHistory), s.history);
    }
    forall h | h in u.history ensures MayHold(t, u, h) {
      assert Disk.OldOrNewCopies(v, u, h, c);
      if Disk.NewCopies(v, u, h, c) {
        ShelfWith(v, u, h, s.history, c);
      } else {
        var o :| o in v.history && Disk.SameCopies(v, o, u, h);
        assert MayHold(s, v, o);
        var m :| m in Shelves(s) && Copied(v, o, m);
        SameShelf(v, o, u, h, m);
      }
    }
    StateCarries(s, v, t, u);
  }

  /** A copy cut short before it showed changes nothing. */
  lemma NotPutMatches(s: Sys, v: Disk.Volume, u: Disk.Volume, c: CycleState)
    requires Matches(s, v) && Disk.Sane(u) && u.state == v.state
    requires forall i | i in v.files :: i in u.files && u.files[i] == v.files[i]
    requires Disk.SameCopies(v, v.Visible(Disk.InHistory), u, u.Visible(Disk.InHistory))
    requires forall h | h in u.history :: Disk.OldCopies(v, u, h)
    ensures Matches(s, u)
  {
    hide Disk.DirOk, Disk.HasCopy, Disk.SameCopies, Like, Disk.Seen, Copied;
    SameShelf(v, v.Visible(Disk.InHistory), u, u.Visible(Disk.InHistory), s.history);
    forall h | h in u.history ensures MayHold(s, u, h) {
      assert Disk.OldCopies(v, u, h);
      var o :| o in v.history && Disk.SameCopies(v, o, u, h);
      assert MayHold(s, v, o);
      var m :| m in Shelves(s) && Copied(v, o, m);
      SameShelf(v, o, u, h, m);
    }
    StateCarries(s, v, s, u);
  }

  /** A copy that is in place for certain. */
  lemma PutSettles(s: Sys, v: Disk.Volume, t: Sys, u: Disk.Volume, c: CycleState)
    requires Matches(s, v) && Disk.Sane(u) && u.state == v.state && Same(t.cell, s.cell) && Same(t.past, s.past)
    requires forall i | i in v.files :: i in u.files && u.files[i] == v.files[i]
    requires u.history == [u.Visible(Disk.InHistory)] && Disk.NewCopies(v, u, u.Visible(Disk.InHistory), c)
    requires Same(t.history, s.history[c.runId := c])
    ensures Matches(t, u)
  {
    hide Disk.DirOk, Disk.HasCopy, Disk.NewCopies, Like, Disk.Seen, Copied;
    ShelfWith(v, u, u.Visible(Disk.InHistory), s.history, c);
    assert t.history in Shelves(t);
    StateCarries(s, v, t, u);
  }

  /** With the copy of the record settled, the active one may go. */
  lemma MayRemove(s: Sys, v: Disk.Volume, c: CycleState)
    requires Matches(s, v) && s.fading == {} && c.runId in s.history && s.history[c.runId] == c
    ensures Disk.HistoryDir in v.Visible(Disk.InState) && forall h | h in v.history :: Disk.HasCopy(v, h, c)
  {
    hide Disk.DirOk, Disk.HasCopy, Disk.Seen, Like;
    assert v.Visible(Disk.InState) in v.state;
    forall h | h in v.history ensures Disk.HasCopy(v, h, c) {
      assert MayHold(s, v, h);
      var m :| m in Shelves(s) && Copied(v, h, m);
    }
  }

  /** What a power loss leaves is one of the states the protocol says it may leave. */
  lemma PowerLossFinds(s: Sys, v: Disk.Volume, u: Disk.Volume)
    requires Matches(s, v) && |u.state| == 1 && u.state[0] in v.state
    requires Disk.ReadsFile(u, u.state[0]) && Disk.Seen(u, u.state[0]) == Disk.Seen(v, u.state[0])
    requires |u.history| == 1 && exists h | h in v.history :: Disk.SameCopies(v, h, u, u.history[0])
    ensures exists x | x in Possible(s) :: Like(x, Disk.Seen(u, u.state[0]))
    ensures exists m | m in Shelves(s) :: Copied(u, u.history[0], m)
  {
    hide Disk.DirOk, Disk.HasCopy, Disk.Seen, Like, Disk.SameCopies;
    assert MayBe(s, Disk.Seen(v, u.state[0]));
    var h :| h in v.history && Disk.SameCopies(v, h, u, u.history[0]);
    assert MayHold(s, v, h);
    var m :| m in Shelves(s) && Copied(v, h, m);
    SameShelf(v, h, u, u.history[0], m);
  }

  lemma PowerLossMatches(t: Sys, u: Disk.Volume)
    requires Disk.Sane(u) && Disk.Rooted(u) && |u.state| == 1 && |u.history| == 1
    requires Disk.ReadsFile(u, u.state[0]) && Like(t.cell, Disk.Seen(u, u.state[0]))
    requires Copied(u, u.history[0], t.history)
    ensures Matches(t, u)
  {
    hide Disk.DirOk, Disk.HasCopy, Disk.Seen, Like;
    assert t.cell in Possible(t) && t.history in Shelves(t);
  }

  // ------------------------------------- what is done to the store from outside

  /** Somebody else replaces the state file. */
  function Damaged(v: Disk.Volume, content: Disk.Content, settled: bool): Disk.Volume
    requires v.state != []
  {
    var d := v.Visible(Disk.InState)[Disk.StateJson := v.next];
    v.(files := v.files[v.next := Disk.File(content, true)], next := v.next + 1,
       state := if settled then [d] else v.state + [d])
  }

  function Unreadable(newer: bool): Disk.Content {
    if newer then Disk.Doc(Obj(map[Schema_version := Int(3)])) else Disk.Garbage
  }

  lemma DamagedIsSane(v: Disk.Volume, content: Disk.Content, settled: bool)
    requires Disk.Sane(v) && Disk.Rooted(v)
    ensures Disk.Sane(Damaged(v, content, settled)) && Disk.Rooted(Damaged(v, content, settled))
    ensures Disk.SameShelves(v, Damaged(v, content, settled))
  {
    var u := Damaged(v, content, settled);
    var last := v.Visible(Disk.InState);
    assert last in v.state;
    forall d | d in u.state || d in u.history ensures Disk.DirOk(u.files, u.next, d) {
      assert Disk.DirOk(v.files, v.next, if d in v.state || d in v.history then d else last);
    }
  }

  lemma DamageIsSeen(v: Disk.Volume, newer: bool, settled: bool)
    requires Disk.Sane(v) && !Disk.Quarantined(v.Visible(Disk.InState))
    ensures var u := Damaged(v, Unreadable(newer), settled);
      && Disk.ReadsFile(u, u.Visible(Disk.InState))
      && Disk.Sees(u) == if newer then Disk.TooNew else Disk.Invalid
  {
    var u := Damaged(v, Unreadable(newer), settled);
    hide Disk.Sane;
    assert forall n: Disk.FileName | n.CorruptCopy? && n in u.Visible(Disk.InState) :: n in v.Visible(Disk.InState);
  }

  lemma DamageWidens(v: Disk.Volume, newer: bool)
    requires Disk.Sane(v) && !Disk.Quarantined(v.Visible(Disk.InState))
    requires Disk.Sane(Damaged(v, Unreadable(newer), false))
    ensures Disk.Widens(v, Damaged(v, Unreadable(newer), false), if newer then Disk.TooNew else Disk.Invalid)
  {
    DamageIsSeen(v, newer, false);
    hide Disk.DirOk, Codec.FromDict;
    var u := Damaged(v, Unreadable(newer), false);
    forall d | d in u.state
      ensures Disk.ReadsFile(u, d) && (Disk.Stems(v, u, d) || (Disk.Seen(u, d) == Disk.Sees(u) && d !in v.state))
    {
      Disk.SaneReads(u, d);
      if d in v.state {
        assert Disk.StemsFrom(v, d, u, d);
      }
    }
    hide Disk.Seen;
  }

  lemma DamageMatches(s: Sys, v: Disk.Volume, newer: bool, settled: bool)
    requires Matches(s, v) && !s.cell.Aside?
    ensures Matches(Next(s, Tampered(newer, settled)), Damaged(v, Unreadable(newer), settled))
  {
    var t, u := Next(s, Tampered(newer, settled)), Damaged(v, Unreadable(newer), settled);
    var w := if newer then Disk.TooNew else Disk.Invalid;
    assert !Disk.Quarantined(v.Visible(Disk.InState)) by {
      hide Disk.Sane, Copied, MayHold, MayBe;
    }
    DamagedIsSane(v, Unreadable(newer), settled);
    DamageIsSeen(v, newer, settled);
    assert Like(t.cell, w);
    hide Disk.HasCopy, Disk.DirOk, Codec.FromDict, Next, Like, Disk.Seen;
    assert SameStore(s, t.(cell := s.cell, past := s.past)) && t.past == Older(s, settled) by {
      TamperedShape(s, newer, settled);
    }
    if settled {
      OnlyMatches(s, v, t, u, w);
    } else {
      DamageWidens(v, newer);
      hide Disk.Widens;
      WiderMatches(s, v, t, u, w);
    }
  }

  lemma TamperedShape(s: Sys, newer: bool, settled: bool)
    requires !s.cell.Aside?
    ensures var t := Next(s, Tampered(newer, settled));
      Same(t.history, s.history) && Same(t.fading, s.fading) && t.past == Older(s, settled)
  {
  }

  /** An operator clears the unreadable bytes and what was set aside. */
  function Cleared(v: Disk.Volume): Disk.Volume
    requires v.state != []
  {
    var last := v.Visible(Disk.InState);
    v.(state := [map n | n in last && !n.StateJson? && !n.CorruptCopy? :: last[n]])
  }

  lemma ClearedMatches(s: Sys, v: Disk.Volume)
    requires Matches(s, v) && !s.cell.Rec?
    ensures Matches(Next(s, OperatorCleared), Cleared(v))
  {
    var t, u := Next(s, OperatorCleared), Cleared(v);
    var last := v.Visible(Disk.InState);
    assert last in v.state;
    assert Disk.Sane(u) && Disk.Rooted(u) by {
      assert Disk.DirOk(v.files, v.next, last);
      assert Disk.DirOk(u.files, u.next, u.state[0]);
    }
    assert Disk.Only(u, Disk.Nothing);
    hide Disk.Sane, Disk.HasCopy, Disk.Seen;
    OnlyMatches(s, v, t, u, Disk.Nothing);
  }

  /** `rmtree`, taken as emptying both directories; nothing of it is synced. */
  function Emptied(v: Disk.Volume): Disk.Volume
    requires v.state != [] && v.history != []
  {
    v.(state := v.state + [v.Visible(Disk.InState) - {Disk.StateJson}], history := v.history + [map[]])
  }

  lemma EmptiedMatches(s: Sys, v: Disk.Volume, t: Sys)
    requires Matches(s, v) && !s.cell.Unreadable()
    requires t.cell == Empty && t.past == s.past + {s.cell} && t.history == map[] && t.fading == s.fading + {s.history}
    ensures Matches(t, Emptied(v))
  {
    var u, last := Emptied(v), v.Visible(Disk.InState);
    assert last in v.state;
    assert Disk.Sane(u) by {
      forall d | d in u.state || d in u.history ensures Disk.DirOk(u.files, u.next, d) {
        assert Disk.DirOk(v.files, v.next, if d in v.state || d in v.history then d else last);
      }
    }
    assert !Disk.Quarantined(last);
    var d := last - {Disk.StateJson};
    assert !Disk.Quarantined(d);
    assert Disk.Seen(u, d) == Disk.Nothing && Disk.ReadsFile(u, d);
    hide Disk.Sane, Disk.HasCopy, Codec.FromDict;
    assert t.cell in Possible(t) && t.history in Shelves(t);
    forall o | o in u.state ensures Disk.ReadsFile(u, o) && MayBe(t, Disk.Seen(u, o)) {
      if o in v.state {
        assert MayBe(s, Disk.Seen(v, o));
        assert Disk.Seen(u, o) == Disk.Seen(v, o);
      }
    }
    forall h | h in u.history ensures MayHold(t, u, h) {
      if h in v.history {
        assert MayHold(s, v, h);
        var m :| m in Shelves(s) && Copied(v, h, m);
        assert Copied(u, h, m);
      } else {
        assert Copied(u, h, map[]);
      }
    }
  }
}
