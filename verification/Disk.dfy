/**
 The state store over a file system that may lose what was not synced. A file's bytes are certain after a power
 loss only if the file was synced; a directory after a power loss is as it was at some moment since its last sync
 (operations in one directory reach the disk in order). A process kill loses nothing but the process.
 */
module Disk {
  import opened Wrappers
  import opened Records
  import opened Codec
  import opened CodecLaws

  /** The bytes of a file, as far as a reader can tell: a JSON document, or not. */
  datatype Content = Doc(json: Json) | Garbage
  datatype File = File(content: Content, synced: bool)

  datatype FileName =
    | StateJson | HistoryDir | CorruptCopy(stamp: nat)    // in the state directory
    | Record(run: string)                             // in history/
    | Temp(tag: nat)

  type Dir = map<FileName, nat>

  datatype Where = InState | InHistory

  /** Every directory with its possible states after a power loss, oldest first; the last is what is visible. */
  datatype Volume = Volume(files: map<nat, File>, state: seq<Dir>, history: seq<Dir>, next: nat) {

    function Of(where: Where): seq<Dir> {
      if where.InState? then state else history
    }

    function With(where: Where, d: seq<Dir>): Volume {
      if where.InState? then this.(state := d) else this.(history := d)
    }

    function Visible(where: Where): Dir
      requires Of(where) != []
    {
      Of(where)[|Of(where)| - 1]
    }

    /** One more operation in a directory, not yet synced. */
    function Changed(where: Where, d: Dir): Volume {
      With(where, Of(where) + [d])
    }

    function SyncDir(where: Where): Volume
      requires Of(where) != []
    {
      With(where, [Visible(where)])
    }

    function Create(where: Where, name: FileName): Volume
      requires Of(where) != []
    {
      Changed(where, Visible(where)[name := next]).(files := files[next := File(Garbage, false)], next := next + 1)
    }

    function Write(ino: nat, content: Content): Volume {
      this.(files := files[ino := File(content, false)])
    }

    function SyncFile(ino: nat): Volume
      requires ino in files
    {
      this.(files := files[ino := File(files[ino].content, true)])
    }

    function Replace(where: Where, from: FileName, to: FileName): Volume
      requires Of(where) != [] && from in Visible(where)
    {
      Changed(where, (Visible(where) - {from})[to := Visible(where)[from]])
    }

    function Unlink(where: Where, name: FileName): Volume
      requires Of(where) != []
    {
      if name in Visible(where) then Changed(where, Visible(where) - {name}) else this
    }
  }

  /** What a directory holds for readers: temporary files are ignored. */
  function Strip(d: Dir): Dir {
    map n | n in d && !n.Temp? :: d[n]
  }

  /** Files with a name, other than temporary and quarantined ones, are synced. */
  ghost predicate DirOk(files: map<nat, File>, next: nat, d: Dir) {
    forall n | n in d ::
      && d[n] < next && (n.Temp? ==> n.tag < next)
      && (n.StateJson? || n.Record? ==> d[n] in files && files[d[n]].synced)
  }

  ghost predicate Sane(v: Volume) {
    && v.state != [] && v.history != []
    && (forall d | d in v.state :: DirOk(v.files, v.next, d))
    && (forall d | d in v.history :: DirOk(v.files, v.next, d))
    && (forall i | i in v.files :: i < v.next)
  }

  // ------------------------------------------------------------- what load sees

  datatype View = Nothing | Has(cycle: CycleState) | Invalid | TooNew | Refused

  function Parse(c: Content): View {
    match c
    case Garbage => Invalid
    case Doc(json) =>
      match FromDict(json)
      case Success(c) => Has(c)
      case Failure(NewerVersion(_)) => TooNew
      case Failure(Corrupt) => Invalid
  }

  /** Any `state.json.corrupt.*` stops every load. */
  predicate Quarantined(d: Dir) {
    exists n | n in d :: n.CorruptCopy?
  }

  function Seen(v: Volume, d: Dir): View
    requires StateJson in d ==> d[StateJson] in v.files
  {
    if Quarantined(d) then Refused
    else if StateJson !in d then Nothing
    else Parse(v.files[d[StateJson]].content)
  }

  ghost predicate ReadsFile(v: Volume, d: Dir) {
    StateJson in d ==> d[StateJson] in v.files
  }

  /** For a load, `d` in `t` is what `o` was in `v`, and it has its archive. */
  ghost predicate StemsFrom(v: Volume, o: Dir, t: Volume, d: Dir) {
    ReadsFile(v, o) && ReadsFile(t, d) && Seen(t, d) == Seen(v, o) && (HistoryDir in o ==> HistoryDir in d)
  }

  /** A load that finds `d` finds what it might have found in `v`. */
  ghost predicate Stems(v: Volume, t: Volume, d: Dir) {
    exists o | o in v.state :: StemsFrom(v, o, t, d)
  }

  predicate HasCopy(v: Volume, h: Dir, c: CycleState) {
    && Record(c.runId) in h && h[Record(c.runId)] in v.files
    && v.files[h[Record(c.runId)]].content == Doc(Obj(ToDict(c)))
  }

  /** The archive copy of a run, if the history directory itself survives. */
  ghost predicate Archived(v: Volume, d: Dir, h: Dir, c: CycleState) {
    HistoryDir in d && HasCopy(v, h, c)
  }

  // --------------------------------------------------------------- atomic writes

  /**
   From `v` to `t`, in one directory, at most this happened: `target` got new, synced content. No other file
   and no other directory changed. Every state the directory may come back in is an old one or the new one.
   */
  ghost predicate Within(v: Volume, t: Volume, where: Where, target: FileName, content: Content) {
    && Sane(t)
    && (forall i | i in v.files :: i in t.files && t.files[i] == v.files[i])
    && (where.InState? ==> t.history == v.history) && (where.InHistory? ==> t.state == v.state)
    && forall d | d in t.Of(where) :: OldOrNew(v, t, where, target, content, d)
  }

  ghost predicate OldOrNew(v: Volume, t: Volume, where: Where, target: FileName, content: Content, d: Dir) {
    || (exists o :: o in v.Of(where) && Strip(d) == Strip(o))
    || IsNew(v, t, where, target, content, d)
  }

  ghost predicate IsNew(v: Volume, t: Volume, where: Where, target: FileName, content: Content, d: Dir) {
    && v.Of(where) != [] && target in d && d[target] in t.files && t.files[d[target]] == File(content, true)
    && Strip(d) == Strip(v.Visible(where))[target := d[target]]
  }

  /** Temporary files aside, the directory is what it was, and comes back as it might have before. */
  ghost predicate Untouched(v: Volume, t: Volume, where: Where) {
    && v.Of(where) != [] && t.Of(where) != [] && Strip(t.Visible(where)) == Strip(v.Visible(where))
    && forall d | d in t.Of(where) :: IsOld(v, where, d)
  }

  ghost predicate IsOld(v: Volume, where: Where, d: Dir) {
    exists o | o in v.Of(where) :: Strip(d) == Strip(o)
  }

  lemma StripTemp(d: Dir, tag: nat, ino: nat)
    ensures Strip(d[Temp(tag) := ino]) == Strip(d) && Strip(d - {Temp(tag)}) == Strip(d)
  {
  }

  lemma StripReplace(d: Dir, tag: nat, target: FileName, ino: nat)
    requires !target.Temp?
    ensures Strip((d - {Temp(tag)})[target := ino]) == Strip(d)[target := ino]
  {
  }

  /** The stages of a write, before the replacement, after it, and after the directory sync. */
  function Begun(v: Volume, where: Where): Volume
    requires v.Of(where) != []
  {
    v.Create(where, Temp(v.next))
  }

  function Written(v: Volume, where: Where, content: Content): Volume
    requires v.Of(where) != []
  {
    Begun(v, where).Write(v.next, content)
  }

  function Replaced(v: Volume, where: Where, target: FileName, content: Content): Volume
    requires v.Of(where) != []
  {
    Written(v, where, content).SyncFile(v.next).Replace(where, Temp(v.next), target)
  }

  /** New directory states that readers take for the old one, or for the new one, keep a write within its bounds. */
  lemma Extends(v: Volume, t: Volume, where: Where, target: FileName, content: Content, ds: seq<Dir>)
    requires Sane(v) && t.Of(where) == v.Of(where) + ds && t.next >= v.next && forall i | i in t.files :: i < t.next
    requires (where.InState? ==> t.history == v.history) && (where.InHistory? ==> t.state == v.state)
    requires forall i | i in v.files :: i in t.files && t.files[i] == v.files[i]
    requires forall d | d in ds :: DirOk(t.files, t.next, d) && OldOrNew(v, t, where, target, content, d)
    ensures Within(v, t, where, target, content)
  {
    hide Strip, IsNew;
    forall o | o in v.state || o in v.history ensures DirOk(t.files, t.next, o) {
      assert DirOk(v.files, v.next, o);
    }
    hide DirOk;
    forall d | d in t.Of(where) ensures OldOrNew(v, t, where, target, content, d) {
      if d in v.Of(where) {
        assert Strip(d) == Strip(d);
      }
    }
  }

  /** The directory with the temporary file, of whatever content, and after its removal. */
  lemma TempIsHarmless(v: Volume, where: Where, target: FileName, content: Content, f: File)
    requires Sane(v)
    ensures var t := Begun(v, where).(files := v.files[v.next := f]);
      && Within(v, t, where, target, content)
      && Within(v, t.Unlink(where, Temp(v.next)), where, target, content)
  {
    var t := Begun(v, where).(files := v.files[v.next := f]);
    var last := v.Visible(where);
    var d := last[Temp(v.next) := v.next];
    StripTemp(last, v.next, v.next);
    StripTemp(d, v.next, v.next);
    assert DirOk(t.files, t.next, d) && DirOk(t.files, t.next, d - {Temp(v.next)}) by {
      assert DirOk(v.files, v.next, last);
    }
    assert OldOrNew(v, t, where, target, content, d) by {
      assert last in v.Of(where);
    }
    var u := t.Unlink(where, Temp(v.next));
    assert OldOrNew(v, u, where, target, content, d) && OldOrNew(v, u, where, target, content, d - {Temp(v.next)}) by {
      assert last in v.Of(where);
    }
    hide OldOrNew, DirOk, Strip;
    Extends(v, t, where, target, content, [d]);
    assert u.Of(where) == v.Of(where) + [d, d - {Temp(v.next)}];
    Extends(v, u, where, target, content, [d, d - {Temp(v.next)}]);
  }

  lemma TempIsIgnored(v: Volume, where: Where, f: File)
    requires v.Of(where) != []
    ensures var t := Begun(v, where).(files := v.files[v.next := f]);
      Untouched(v, t, where) && Untouched(v, t.Unlink(where, Temp(v.next)), where)
  {
    var last := v.Visible(where);
    var d := last[Temp(v.next) := v.next];
    StripTemp(last, v.next, v.next);
    StripTemp(d, v.next, v.next);
    hide Strip;
    assert last in v.Of(where);
    var u := Begun(v, where).(files := v.files[v.next := f]).Unlink(where, Temp(v.next));
    assert u.Of(where) == v.Of(where) + [d, d - {Temp(v.next)}];
    forall o | o in u.Of(where) ensures IsOld(v, where, o) {
      assert o in v.Of(where) || Strip(o) == Strip(last);
    }
  }

  /** The directory with the new entry in place. */
  function Final(v: Volume, where: Where, target: FileName): Dir
    requires v.Of(where) != []
  {
    (v.Visible(where)[Temp(v.next) := v.next] - {Temp(v.next)})[target := v.next]
  }

  lemma FinalIsNew(v: Volume, where: Where, target: FileName, content: Content)
    requires Sane(v) && !target.Temp?
    ensures var t := Replaced(v, where, target, content); var d := Final(v, where, target);
      && t.Of(where) == v.Of(where) + [v.Visible(where)[Temp(v.next) := v.next], d]
      && t.files == v.files[v.next := File(content, true)] && t.next == v.next + 1
      && (where.InState? ==> t.history == v.history) && (where.InHistory? ==> t.state == v.state)
      && IsNew(v, t, where, target, content, d)
  {
    var last := v.Visible(where);
    StripTemp(last, v.next, v.next);
    StripReplace(last[Temp(v.next) := v.next], v.next, target, v.next);
    hide Strip, DirOk;
  }

  lemma FinalIsOk(v: Volume, where: Where, target: FileName, files: map<nat, File>)
    requires Sane(v) && v.next in files && files[v.next].synced
    requires forall i | i in v.files :: i in files && files[i] == v.files[i]
    ensures DirOk(files, v.next + 1, v.Visible(where)[Temp(v.next) := v.next])
    ensures DirOk(files, v.next + 1, Final(v, where, target)) || target.Temp?
  {
    var last := v.Visible(where);
    assert DirOk(v.files, v.next, last);
  }

  lemma ReplacedIsNew(v: Volume, where: Where, target: FileName, content: Content)
    requires Sane(v) && !target.Temp?
    ensures var t := Replaced(v, where, target, content);
      && t.Of(where) != [] && Within(v, t, where, target, content)
      && IsNew(v, t, where, target, content, t.Visible(where))
      && Within(v, t.SyncDir(where), where, target, content)
      && IsNew(v, t.SyncDir(where), where, target, content, t.Visible(where))
  {
    var t := Replaced(v, where, target, content);
    var last := v.Visible(where);
    var d, e := last[Temp(v.next) := v.next], Final(v, where, target);
    FinalIsNew(v, where, target, content);
    FinalIsOk(v, where, target, t.files);
    StripTemp(last, v.next, v.next);
    hide Replaced, Final, IsNew, DirOk, Strip;
    assert OldOrNew(v, t, where, target, content, d) by {
      assert last in v.Of(where);
    }
    Extends(v, t, where, target, content, [d, e]);
    assert t.Visible(where) == e;
    SyncKeeps(v, t, where, target, content);
  }

  lemma SyncKeeps(v: Volume, t: Volume, where: Where, target: FileName, content: Content)
    requires Within(v, t, where, target, content)
    ensures t.Of(where) != [] && Within(v, t.SyncDir(where), where, target, content)
    ensures var d := t.Visible(where);
      IsNew(v, t, where, target, content, d) ==> IsNew(v, t.SyncDir(where), where, target, content, d)
  {
    hide Strip, DirOk;
    var u := t.SyncDir(where);
    var d := t.Visible(where);
    assert d in t.Of(where);
    assert OldOrNew(v, u, where, target, content, d) by {
      assert OldOrNew(v, t, where, target, content, d);
    }
  }

  // ------------------------------------------------ what a write means to load

  lemma SaneReads(v: Volume, d: Dir)
    requires Sane(v) && d in v.state
    ensures ReadsFile(v, d)
  {
    assert DirOk(v.files, v.next, d);
  }

  /** Directories that differ in temporary files only are the same to a load. */
  lemma SeenAlike(v: Volume, o: Dir, t: Volume, d: Dir)
    requires Strip(d) == Strip(o) && ReadsFile(v, o)
    requires forall i | i in v.files :: i in t.files && t.files[i] == v.files[i]
    ensures ReadsFile(t, d) && Seen(t, d) == Seen(v, o) && (HistoryDir in d <==> HistoryDir in o)
  {
    assert forall n: FileName | !n.Temp? :: n in d <==> n in Strip(d);
    assert forall n: FileName | !n.Temp? :: n in o <==> n in Strip(o);
    assert StateJson in d ==> d[StateJson] == Strip(d)[StateJson] == o[StateJson];
    assert forall n: FileName | n.CorruptCopy? :: n in d <==> n in o;
  }

  lemma ParsesBack(c: CycleState)
    requires FromDict(Obj(ToDict(c))) == Success(c)
    ensures Parse(Doc(Obj(ToDict(c)))) == Has(c)
  {
    hide ToDict, FromDict;
  }

  /** Replacing the active record brings in no other name. */
  lemma StripKeeps(v: Volume, d: Dir, o: Dir)
    requires StateJson in d && Strip(d) == Strip(o)[StateJson := d[StateJson]]
    ensures (HistoryDir in d <==> HistoryDir in o) && (Quarantined(d) <==> Quarantined(o))
  {
    assert forall n: FileName | !n.Temp? :: n in d <==> n in Strip(d);
    assert forall n: FileName | !n.Temp? :: n in o <==> n in Strip(o);
    assert forall n: FileName | n.CorruptCopy? :: n in d <==> n in o;
  }

  lemma SeenNew(v: Volume, t: Volume, c: CycleState, d: Dir)
    requires WellFormed(c) && IsNew(v, t, InState, StateJson, Doc(Obj(ToDict(c))), d)
    requires !Quarantined(v.Visible(InState))
    ensures ReadsFile(t, d) && Seen(t, d) == Has(c) && (HistoryDir in d <==> HistoryDir in v.Visible(InState))
  {
    RoundTrip(c);
    hide ToDict, FromDict, WellFormed, Parse;
    var o := v.Visible(InState);
    assert Parse(Doc(Obj(ToDict(c)))) == Has(c) by {
      ParsesBack(c);
    }
    StripKeeps(v, d, o);
    assert !Quarantined(d);
  }

  /** A load finds this, now and after any power loss. */
  ghost predicate Only(v: Volume, w: View)
    requires Sane(v)
  {
    forall d | d in v.state :: ReadsFile(v, d) && Seen(v, d) == w
  }

  /** Nothing is quarantined, whatever happens. */
  ghost predicate Clean(v: Volume) {
    forall d | d in v.state :: !Quarantined(d)
  }

  /** The archive copy of `c` survives whatever happens next. */
  ghost predicate Kept(v: Volume, c: CycleState) {
    forall d, h | d in v.state && h in v.history :: Archived(v, d, h, c)
  }

  /** What a load finds now. */
  function Sees(v: Volume): View
    requires v.state != [] && ReadsFile(v, v.Visible(InState))
  {
    Seen(v, v.Visible(InState))
  }

  /** A load of `t`, now or after a power loss, finds what it might have found in `v`, or `w`. */
  ghost predicate Widens(v: Volume, t: Volume, w: View)
    requires Sane(v)
  {
    forall d | d in t.state :: ReadsFile(t, d) && (Seen(t, d) == w || Stems(v, t, d))
  }

  /** The history directory itself is durable. */
  ghost predicate Rooted(v: Volume) {
    forall d | d in v.state :: HistoryDir in d
  }

  /** No file changed, and no archive directory. */
  ghost predicate SameShelves(v: Volume, t: Volume) {
    t.history == v.history && forall i | i in v.files :: i in t.files && t.files[i] == v.files[i]
  }

  lemma VisibleReads(v: Volume)
    requires Sane(v)
    ensures ReadsFile(v, v.Visible(InState)) && v.Visible(InState) in v.state
  {
    SaneReads(v, v.Visible(InState));
  }

  /** After a write of the active record a load finds what it might have found before, or the new record. */
  lemma SaveIsAtomic(v: Volume, t: Volume, c: CycleState)
    requires Within(v, t, InState, StateJson, Doc(Obj(ToDict(c)))) && Sane(v) && WellFormed(c) && Clean(v)
    ensures t.history == v.history && Clean(t)
    ensures forall d | d in t.state ::
      ReadsFile(t, d) && (Seen(t, d) == Has(c) || Stems(v, t, d))
      && exists o :: o in v.state && (HistoryDir in d <==> HistoryDir in o)
  {
    hide ToDict, WellFormed, IsNew, Strip, DirOk, Seen, Stems;
    forall d | d in t.state
      ensures ReadsFile(t, d) && (Seen(t, d) == Has(c) || Stems(v, t, d)) && !Quarantined(d)
      ensures exists o :: o in v.state && (HistoryDir in d <==> HistoryDir in o)
    {
      SaveOne(v, t, c, d);
    }
  }

  lemma SaveOne(v: Volume, t: Volume, c: CycleState, d: Dir)
    requires Within(v, t, InState, StateJson, Doc(Obj(ToDict(c)))) && Sane(v) && WellFormed(c) && Clean(v)
    requires d in t.state
    ensures ReadsFile(t, d) && (Seen(t, d) == Has(c) || Stems(v, t, d)) && !Quarantined(d)
    ensures exists o :: o in v.state && (HistoryDir in d <==> HistoryDir in o)
  {
    hide ToDict, WellFormed, IsNew, Strip, DirOk, FromDict;
    assert OldOrNew(v, t, InState, StateJson, Doc(Obj(ToDict(c))), d);
    var last := v.Visible(InState);
    assert last in v.state;
    if o :| o in v.state && Strip(d) == Strip(o) {
      SaneReads(v, o);
      SeenAlike(v, o, t, d);
    } else {
      SeenNew(v, t, c, d);
    }
  }

  lemma SaveKeepsArchive(v: Volume, t: Volume, c: CycleState, a: CycleState)
    requires Within(v, t, InState, StateJson, Doc(Obj(ToDict(c)))) && Sane(v) && WellFormed(c) && Clean(v)
    requires Kept(v, a)
    ensures Kept(t, a)
  {
    hide ToDict, WellFormed, IsNew, Strip, DirOk, Seen, Clean;
    SaveIsAtomic(v, t, c);
    forall d, h | d in t.state && h in t.history ensures Archived(t, d, h, a) {
      var o :| o in v.state && (HistoryDir in d <==> HistoryDir in o);
      assert Archived(v, o, h, a);
    }
  }

  lemma SaveSettles(v: Volume, t: Volume, c: CycleState)
    requires Within(v, t, InState, StateJson, Doc(Obj(ToDict(c)))) && Sane(v) && WellFormed(c) && Clean(v)
    requires t.state == [t.Visible(InState)]
    requires IsNew(v, t, InState, StateJson, Doc(Obj(ToDict(c))), t.Visible(InState))
    ensures Only(t, Has(c))
  {
    hide ToDict, WellFormed, IsNew, Strip, DirOk, Seen;
    assert v.Visible(InState) in v.state;
    SeenNew(v, t, c, t.Visible(InState));
  }

  lemma SaveCutShort(v: Volume, t: Volume, c: CycleState, replaced: bool)
    requires Within(v, t, InState, StateJson, Doc(Obj(ToDict(c)))) && Sane(v) && WellFormed(c) && Clean(v)
    requires t.state != [] && ReadsFile(t, t.Visible(InState)) && ReadsFile(v, v.Visible(InState))
    requires if replaced then IsNew(v, t, InState, StateJson, Doc(Obj(ToDict(c))), t.Visible(InState))
             else Untouched(v, t, InState)
    ensures Sees(t) == if replaced then Has(c) else Sees(v)
    ensures !replaced ==> forall d | d in t.state :: Stems(v, t, d)
  {
    hide ToDict, WellFormed, IsNew, Strip, DirOk, Seen;
    assert v.Visible(InState) in v.state;
    if replaced {
      SeenNew(v, t, c, t.Visible(InState));
    } else {
      SeenAlike(v, v.Visible(InState), t, t.Visible(InState));
      forall d | d in t.state ensures Stems(v, t, d) {
        assert IsOld(v, InState, d);
        var o :| o in v.state && Strip(d) == Strip(o);
        SaneReads(v, o);
        SeenAlike(v, o, t, d);
        StillStems(v, t, d, o);
      }
    }
  }

  /** Until its directory is synced, a new record is all that is seen, but not all that may come back. */
  lemma CutShortComesBack(v: Volume, c: CycleState)
    requires Sane(v) && WellFormed(c) && Clean(v)
    ensures var t := Replaced(v, InState, StateJson, Doc(Obj(ToDict(c))));
      && t.state != [] && ReadsFile(t, t.Visible(InState)) && Sees(t) == Has(c)
      && forall o | o in v.state :: o in t.state && ReadsFile(v, o) && ReadsFile(t, o) && Seen(t, o) == Seen(v, o)
  {
    hide ToDict, WellFormed, Strip, DirOk, FromDict;
    var t := Replaced(v, InState, StateJson, Doc(Obj(ToDict(c))));
    ReplacedIsNew(v, InState, StateJson, Doc(Obj(ToDict(c))));
    FinalIsNew(v, InState, StateJson, Doc(Obj(ToDict(c))));
    hide Replaced, IsNew;
    assert v.Visible(InState) in v.state;
    SeenNew(v, t, c, t.Visible(InState));
    forall o | o in v.state ensures o in t.state && ReadsFile(v, o) && ReadsFile(t, o) && Seen(t, o) == Seen(v, o) {
      SaneReads(v, o);
    }
  }

  // ------------------------------------------------------------- archiving

  /** Every archive copy of `o` is in `h`, too. */
  ghost predicate SameCopies(v: Volume, o: Dir, t: Volume, h: Dir) {
    forall a: CycleState | HasCopy(v, o, a) :: HasCopy(t, h, a)
  }

  /** The archive as it was, with the copy of `c` put in. */
  ghost predicate NewCopies(v: Volume, t: Volume, h: Dir, c: CycleState)
    requires v.history != []
  {
    && HasCopy(t, h, c)
    && forall a: CycleState | a.runId != c.runId && HasCopy(v, v.Visible(InHistory), a) :: HasCopy(t, h, a)
  }

  ghost predicate OldOrNewCopies(v: Volume, t: Volume, h: Dir, c: CycleState)
    requires v.history != []
  {
    NewCopies(v, t, h, c) || exists o | o in v.history :: SameCopies(v, o, t, h)
  }

  /** No archive copy is in it that was not before, and none that was has gone. */
  ghost predicate OldCopies(v: Volume, t: Volume, h: Dir) {
    exists o | o in v.history :: SameCopies(v, o, t, h)
  }

  lemma AlikeCopies(v: Volume, o: Dir, t: Volume, h: Dir)
    requires Strip(h) == Strip(o) && forall i | i in v.files :: i in t.files && t.files[i] == v.files[i]
    ensures SameCopies(v, o, t, h)
  {
    hide ToDict;
    assert forall n: FileName | !n.Temp? :: n in h <==> n in Strip(h);
    assert forall n: FileName | n in Strip(o) :: o[n] == Strip(o)[n] == Strip(h)[n] == h[n];
    forall a: CycleState | HasCopy(v, o, a) ensures HasCopy(t, h, a) {
      assert Record(a.runId) in Strip(o);
    }
  }

  lemma NewCopy(v: Volume, t: Volume, h: Dir, c: CycleState)
    requires v.history != [] && IsNew(v, t, InHistory, Record(c.runId), Doc(Obj(ToDict(c))), h)
    requires forall i | i in v.files :: i in t.files && t.files[i] == v.files[i]
    ensures NewCopies(v, t, h, c)
  {
    hide ToDict;
    var o := v.Visible(InHistory);
    assert forall n: FileName | !n.Temp? :: n in h <==> n in Strip(h);
    forall a: CycleState | a.runId != c.runId && HasCopy(v, o, a) ensures HasCopy(t, h, a) {
      assert Record(a.runId) in Strip(o);
      assert h[Record(a.runId)] == Strip(h)[Record(a.runId)] == Strip(o)[Record(a.runId)];
    }
  }

  /** However the write of a copy ends, each archive directory there may be is an old one, or has the copy. */
  lemma CopiesOldOrNew(v: Volume, t: Volume, c: CycleState)
    requires Within(v, t, InHistory, Record(c.runId), Doc(Obj(ToDict(c)))) && v.history != []
    ensures forall h | h in t.history :: OldOrNewCopies(v, t, h, c)
  {
    hide ToDict, Strip, Sane, IsNew, SameCopies;
    forall h | h in t.history ensures OldOrNewCopies(v, t, h, c) {
      assert OldOrNew(v, t, InHistory, Record(c.runId), Doc(Obj(ToDict(c))), h);
      if o :| o in v.history && Strip(h) == Strip(o) {
        AlikeCopies(v, o, t, h);
      } else {
        NewCopy(v, t, h, c);
      }
    }
  }

  /** A directory made in the state directory is no matter for the archive. */
  lemma MkdirCopies(v: Volume, u: Volume, t: Volume, c: CycleState)
    requires v.history != [] && u.history == v.history && u.files == v.files
    requires forall h | h in t.history :: OldOrNewCopies(u, t, h, c)
    ensures forall h | h in t.history :: OldOrNewCopies(v, t, h, c)
  {
    hide ToDict;
    forall h | h in t.history ensures OldOrNewCopies(v, t, h, c) {
      assert OldOrNewCopies(u, t, h, c);
      if o :| o in u.history && SameCopies(u, o, t, h) {
        assert SameCopies(v, o, t, h);
      } else {
        assert NewCopies(v, t, h, c);
      }
    }
  }

  /** `history_dir.mkdir`, if it is not there. */
  function WithHistory(v: Volume): Volume
    requires v.state != []
  {
    var last := v.Visible(InState);
    if HistoryDir in last then v
    else v.Changed(InState, last[HistoryDir := v.next]).(next := v.next + 1)
  }

  /** From `v` to `t` a load finds nothing it might not have found before, and no archive copy is lost. */
  ghost predicate Quiet(v: Volume, t: Volume)
    requires Sane(v)
  {
    && Sane(t) && Clean(t)
    && (forall d | d in t.state :: ReadsFile(t, d) && Stems(v, t, d))
  }

  lemma StillStems(v: Volume, t: Volume, d: Dir, o: Dir)
    requires o in v.state && StemsFrom(v, o, t, d)
    ensures Stems(v, t, d)
  {
  }

  lemma MkdirIsQuiet(v: Volume)
    requires Sane(v) && Clean(v)
    ensures var t := WithHistory(v);
      Quiet(v, t) && HistoryDir in t.Visible(InState) && t.history == v.history && t.files == v.files
    ensures forall a :: Kept(v, a) ==> Kept(WithHistory(v), a)
  {
    var t, last := WithHistory(v), v.Visible(InState);
    assert last in v.state;
    MkdirIsSane(v);
    hide DirOk;
    forall d | d in t.state ensures ReadsFile(t, d) && !Quarantined(d) && Stems(v, t, d) {
      var o := if d in v.state then d else last;
      SaneReads(v, o);
      assert Quarantined(d) ==> Quarantined(o);
      StillStems(v, t, d, o);
    }
    forall a | Kept(v, a) ensures Kept(t, a) {
      assert Archived(v, last, v.Visible(InHistory), a);
    }
  }

  lemma MkdirKeeps(v: Volume, c: CycleState)
    requires Sane(v) && Clean(v)
    ensures KeepsCopies(v, WithHistory(v), c)
  {
    MkdirIsQuiet(v);
  }

  lemma MkdirIsSane(v: Volume)
    requires Sane(v)
    ensures Sane(WithHistory(v))
  {
    var t, last := WithHistory(v), v.Visible(InState);
    forall d | d in t.state || d in t.history ensures DirOk(t.files, t.next, d) {
      assert DirOk(v.files, v.next, if d in v.state || d in v.history then d else last);
    }
  }

  /** Writing the archive copy changes nothing for a load. */
  lemma CopyIsQuiet(v: Volume, t: Volume, target: FileName, content: Content)
    requires Within(v, t, InHistory, target, content) && Sane(v) && Clean(v)
    ensures Quiet(v, t)
  {
    hide DirOk, OldOrNew;
    forall d | d in t.state ensures ReadsFile(t, d) && Stems(v, t, d) {
      SaneReads(v, d);
      StillStems(v, t, d, d);
    }
  }

  lemma CopyKeeps(v: Volume, t: Volume, c: CycleState, a: CycleState)
    requires Within(v, t, InHistory, Record(c.runId), Doc(Obj(ToDict(c)))) && Sane(v)
    requires Kept(v, a) && (a.runId == c.runId ==> a == c)
    ensures Kept(t, a)
  {
    hide ToDict, DirOk;
    forall d, h | d in t.state && h in t.history ensures Archived(t, d, h, a) {
      assert OldOrNew(v, t, InHistory, Record(c.runId), Doc(Obj(ToDict(c))), h);
      var last := v.Visible(InHistory);
      assert Archived(v, d, last, a);
      assert forall n: FileName | !n.Temp? :: n in h <==> n in Strip(h);
      if o :| o in v.history && Strip(h) == Strip(o) {
        assert Archived(v, d, o, a);
        assert Record(a.runId) in Strip(o);
      } else if a.runId != c.runId {
        assert Record(a.runId) in Strip(last);
      }
    }
  }

  /** The copy is durable; then the active record goes. */
  lemma RemovalIsSafe(v: Volume, c: CycleState)
    requires Sane(v) && Clean(v) && HistoryDir in v.Visible(InState)
    requires forall h | h in v.history :: HasCopy(v, h, c)
    ensures var t := v.Unlink(InState, StateJson);
      && Sane(t) && Clean(t) && HistoryDir in t.Visible(InState) && StateJson !in t.Visible(InState)
      && t.history == v.history && t.files == v.files
      && forall d | d in t.state ::
           && ReadsFile(t, d)
           && (Stems(v, t, d)
               || (Seen(t, d) == Nothing && forall h | h in t.history :: Archived(t, d, h, c)))
    ensures forall a :: Kept(v, a) ==> Kept(v.Unlink(InState, StateJson), a)
  {
    hide ToDict;
    var t, last := v.Unlink(InState, StateJson), v.Visible(InState);
    assert last in v.state;
    RemovalIsSane(v);
    hide DirOk;
    forall d | d in t.state
      ensures ReadsFile(t, d) && !Quarantined(d)
      ensures Stems(v, t, d) || (Seen(t, d) == Nothing && forall h | h in t.history :: Archived(t, d, h, c))
    {
      if d in v.state {
        SaneReads(v, d);
        StillStems(v, t, d, d);
      } else {
        assert d == last - {StateJson};
        assert Quarantined(d) ==> Quarantined(last);
      }
    }
    forall a | Kept(v, a) ensures Kept(t, a) {
      assert Archived(v, last, v.Visible(InHistory), a);
      forall d, h | d in t.state && h in t.history ensures Archived(t, d, h, a) {
        assert Archived(v, if d in v.state then d else last, h, a);
      }
    }
  }

  lemma RemovalIsSane(v: Volume)
    requires Sane(v)
    ensures Sane(v.Unlink(InState, StateJson))
  {
    var t, last := v.Unlink(InState, StateJson), v.Visible(InState);
    forall d | d in t.state || d in t.history ensures DirOk(t.files, t.next, d) {
      assert DirOk(v.files, v.next, if d in v.state || d in v.history then d else last);
    }
  }

  /** Syncing a directory only rules possibilities out. */
  lemma SyncIsSafe(v: Volume, where: Where)
    requires Sane(v)
    ensures var t := v.SyncDir(where);
      && Sane(t) && t.files == v.files && (Clean(v) ==> Clean(t))
      && (forall d | d in t.state :: d in v.state && ReadsFile(t, d) && Seen(t, d) == Seen(v, d))
      && (forall h | h in t.history :: h in v.history)
    ensures forall a :: Kept(v, a) ==> Kept(v.SyncDir(where), a)
  {
    var t := v.SyncDir(where);
    forall d | d in t.state ensures d in v.state && ReadsFile(t, d) && Seen(t, d) == Seen(v, d) {
      SaneReads(v, d);
    }
    hide DirOk, Seen, Quarantined;
    forall a | Kept(v, a) ensures Kept(t, a) {
      forall d, h | d in t.state && h in t.history ensures Archived(t, d, h, a) {
        assert Archived(v, d, h, a);
      }
    }
  }

  /** No archive copy is lost, except by a different record for the same run. */
  ghost predicate KeepsCopies(v: Volume, t: Volume, c: CycleState) {
    forall a: CycleState | a.runId == c.runId ==> a == c :: Kept(v, a) ==> Kept(t, a)
  }

  /** The active record is gone, but its copy stays whatever happens. */
  ghost predicate MovedAway(t: Volume, d: Dir, c: CycleState) {
    ReadsFile(t, d) && Seen(t, d) == Nothing && forall h | h in t.history :: Archived(t, d, h, c)
  }

  /** What archiving may leave behind at any moment. */
  ghost predicate Archiving(v: Volume, t: Volume, c: CycleState)
    requires Sane(v)
  {
    && Sane(t) && Clean(t) && KeepsCopies(v, t, c)
    && (forall d | d in t.state :: ReadsFile(t, d) && (Stems(v, t, d) || MovedAway(t, d, c)))
  }

  lemma QuietTrans(v: Volume, u: Volume, t: Volume, c: CycleState)
    requires Sane(v) && Quiet(v, u) && Quiet(u, t) && KeepsCopies(v, u, c) && KeepsCopies(u, t, c)
    ensures Quiet(v, t) && KeepsCopies(v, t, c) && Archiving(v, t, c)
  {
    hide Clean, Kept, MovedAway, DirOk;
    forall d | d in t.state ensures Stems(v, t, d) {
      var o :| o in u.state && StemsFrom(u, o, t, d);
    }
  }

  lemma ArchivingTrans(v: Volume, u: Volume, t: Volume, c: CycleState)
    requires Sane(v) && Quiet(v, u) && KeepsCopies(v, u, c) && Archiving(u, t, c)
    ensures Archiving(v, t, c)
  {
    hide Clean, Kept, DirOk, Seen, MovedAway;
    forall d | d in t.state ensures Stems(v, t, d) || MovedAway(t, d, c) {
      if Stems(u, t, d) {
        var o :| o in u.state && StemsFrom(u, o, t, d);
      }
    }
  }

  lemma SameShelvesNew(v: Volume, u: Volume, t: Volume, c: CycleState)
    requires v.history != [] && SameShelves(u, t) && forall h | h in u.history :: OldOrNewCopies(v, u, h, c)
    ensures forall h | h in t.history :: OldOrNewCopies(v, t, h, c)
  {
    hide ToDict;
    forall h | h in t.history ensures OldOrNewCopies(v, t, h, c) {
      assert OldOrNewCopies(v, u, h, c);
      if o :| o in v.history && SameCopies(v, o, u, h) {
        assert SameCopies(v, o, t, h);
      } else {
        assert NewCopies(v, t, h, c);
      }
    }
  }

  lemma MkdirIsRooted(v: Volume)
    requires Sane(v)
    ensures Rooted(v) ==> WithHistory(v) == v
  {
    assert v.Visible(InState) in v.state;
  }

  /** What was on the shelves before anything is written. */
  lemma Standing(v: Volume, u: Volume, c: CycleState)
    requires v.history != [] && u.history == v.history && u.files == v.files
    ensures forall h | h in u.history :: OldOrNewCopies(v, u, h, c)
    ensures SameCopies(v, v.Visible(InHistory), u, u.Visible(InHistory))
    ensures forall h | h in u.history :: OldCopies(v, u, h)
  {
    hide ToDict;
    forall h | h in u.history ensures OldOrNewCopies(v, u, h, c) {
      assert SameCopies(v, h, u, h);
    }
  }

  lemma CopyPut(v: Volume, u: Volume, t: Volume, c: CycleState, replaced: bool)
    requires v.history != [] && u.history == v.history && u.files == v.files && t.history != []
    requires forall i | i in u.files :: i in t.files && t.files[i] == u.files[i]
    requires if replaced then IsNew(u, t, InHistory, Record(c.runId), Doc(Obj(ToDict(c))), t.Visible(InHistory))
             else Untouched(u, t, InHistory)
    ensures if replaced then NewCopies(v, t, t.Visible(InHistory), c)
            else
              && SameCopies(v, v.Visible(InHistory), t, t.Visible(InHistory))
              && forall h | h in t.history :: OldCopies(v, t, h)
  {
    hide ToDict, Strip, IsNew;
    if replaced {
      NewCopy(u, t, t.Visible(InHistory), c);
    } else {
      AlikeCopies(u, u.Visible(InHistory), t, t.Visible(InHistory));
      forall h | h in t.history ensures OldCopies(v, t, h) {
        assert IsOld(u, InHistory, h);
        var o :| o in u.history && Strip(h) == Strip(o);
        AlikeCopies(u, o, t, h);
        assert SameCopies(v, o, t, h);
      }
    }
  }

  lemma RemovalSees(v: Volume, c: CycleState)
    requires Sane(v) && Clean(v) && HistoryDir in v.Visible(InState)
    requires forall h | h in v.history :: HasCopy(v, h, c)
    ensures var t := v.Unlink(InState, StateJson);
      && t.state != [] && ReadsFile(t, t.Visible(InState)) && Sees(t) == Nothing && Widens(v, t, Nothing)
      && SameShelves(v, t) && (Rooted(v) ==> Rooted(t))
  {
    hide ToDict;
    RemovalIsSafe(v, c);
    var t := v.Unlink(InState, StateJson);
    assert t.Visible(InState) in t.state;
    hide DirOk, HasCopy;
  }

  lemma RemovalSynced(v: Volume, u: Volume, c: CycleState)
    requires Sane(v) && Sane(u) && Widens(v, u, Nothing) && SameShelves(v, u) && (Rooted(v) ==> Rooted(u))
    requires ReadsFile(u, u.Visible(InState)) && Sees(u) == Nothing
    ensures var t := u.SyncDir(InState);
      && ReadsFile(t, t.Visible(InState)) && Sees(t) == Nothing && Widens(v, t, Nothing)
      && SameShelves(v, t) && (Rooted(v) ==> Rooted(t))
  {
    SyncIsSafe(u, InState);
    hide DirOk, Seen, Kept;
  }

  lemma ArchivingStart(v: Volume, c: CycleState)
    requires Sane(v) && Clean(v)
    ensures Quiet(v, v) && KeepsCopies(v, v, c)
  {
    hide Seen, Kept;
    forall d | d in v.state ensures ReadsFile(v, d) && Stems(v, v, d) {
      SaneReads(v, d);
    }
  }

  lemma CopyStep(v: Volume, t: Volume, c: CycleState)
    requires Within(v, t, InHistory, Record(c.runId), Doc(Obj(ToDict(c)))) && Sane(v) && Clean(v)
    ensures Quiet(v, t) && KeepsCopies(v, t, c) && t.state == v.state
  {
    CopyIsQuiet(v, t, Record(c.runId), Doc(Obj(ToDict(c))));
    hide Within, Kept, Quiet, ToDict;
    forall a: CycleState | (a.runId == c.runId ==> a == c) && Kept(v, a) ensures Kept(t, a) {
      CopyKeeps(v, t, c, a);
    }
  }

  lemma RemovalStep(v: Volume, u: Volume, c: CycleState)
    requires Sane(v) && Sane(u) && Quiet(v, u) && KeepsCopies(v, u, c) && HistoryDir in u.Visible(InState)
    requires forall h | h in u.history :: HasCopy(u, h, c)
    ensures var t := u.Unlink(InState, StateJson);
      && Archiving(v, t, c) && HistoryDir in t.Visible(InState) && StateJson !in t.Visible(InState)
      && t.history == u.history && t.files == u.files
  {
    var t := u.Unlink(InState, StateJson);
    RemovalIsSafe(u, c);
    hide Kept, DirOk, ToDict, Archived;
    forall d | d in t.state ensures ReadsFile(t, d) && (Stems(v, t, d) || MovedAway(t, d, c)) {
      if Stems(u, t, d) {
        var o :| o in u.state && StemsFrom(u, o, t, d);
      }
    }
  }

  lemma SyncStep(v: Volume, u: Volume, c: CycleState)
    requires Sane(v) && Archiving(v, u, c)
    ensures Archiving(v, u.SyncDir(InState), c)
  {
    SyncIsSafe(u, InState);
    var t := u.SyncDir(InState);
    hide Kept, DirOk, ToDict, Seen;
    forall d | d in t.state ensures ReadsFile(t, d) && (Stems(v, t, d) || MovedAway(t, d, c)) {
      assert d in u.state;
    }
  }

  /** After the directory sync the active record is gone for certain. */
  lemma RemovalSettles(v: Volume, c: CycleState)
    requires Sane(v) && Clean(v) && HistoryDir in v.Visible(InState) && StateJson !in v.Visible(InState)
    requires forall h | h in v.history :: HasCopy(v, h, c)
    ensures var t := v.SyncDir(InState); Sane(t) && Only(t, Nothing) && Kept(t, c)
  {
    hide ToDict, DirOk;
    SyncIsSafe(v, InState);
    assert v.Visible(InState) in v.state;
  }

  // ------------------------------------------------------------ quarantine

  /** Whatever happens, a load refuses: the bytes are invalid, or they were set aside. */
  ghost predicate AllRefused(v: Volume)
    requires Sane(v)
  {
    forall d | d in v.state :: ReadsFile(v, d) && (Seen(v, d) == Invalid || Seen(v, d) == Refused)
  }

  /** The invalid bytes are still there: under their name, or as a synced copy. */
  ghost predicate EvidenceIn(v: Volume, d: Dir, raw: Content) {
    || (StateJson in d && d[StateJson] in v.files && v.files[d[StateJson]].content == raw)
    || (exists k :: CorruptCopy(k) in d && d[CorruptCopy(k)] in v.files
                    && v.files[d[CorruptCopy(k)]] == File(raw, true))
  }

  ghost predicate Evidence(v: Volume, raw: Content) {
    forall d | d in v.state :: EvidenceIn(v, d, raw)
  }

  /** Setting the bytes aside, step by step. */
  function CopyBegun(v: Volume, stamp: nat, f: File): Volume
    requires v.state != []
  {
    v.Create(InState, CorruptCopy(stamp)).(files := v.files[v.next := f])
  }

  lemma CopyBegunIsSane(v: Volume, stamp: nat, f: File)
    requires Sane(v)
    ensures Sane(CopyBegun(v, stamp, f))
  {
    var t, last := CopyBegun(v, stamp, f), v.Visible(InState);
    assert DirOk(t.files, t.next, last[CorruptCopy(stamp) := v.next]) by {
      assert DirOk(v.files, v.next, last);
    }
    forall o | o in v.state || o in v.history ensures DirOk(t.files, t.next, o) {
      assert DirOk(v.files, v.next, o);
    }
  }

  lemma CopyBegunWidens(v: Volume, stamp: nat, f: File)
    requires Sane(v) && CorruptCopy(stamp) !in v.Visible(InState)
    ensures var t := CopyBegun(v, stamp, f);
      && Widens(v, t, Refused) && SameShelves(v, t) && (Rooted(v) ==> Rooted(t))
      && Quarantined(t.Visible(InState))
  {
    CopyBegunIsSane(v, stamp, f);
    var t, last := CopyBegun(v, stamp, f), v.Visible(InState);
    assert last in v.state;
    forall d | d in t.state ensures ReadsFile(t, d) && (Seen(t, d) == Refused || Stems(v, t, d)) {
      SaneReads(t, d);
      if d in v.state {
        SaneReads(v, d);
        StillStems(v, t, d, d);
      } else {
        assert CorruptCopy(stamp) in d;
      }
    }
    assert CorruptCopy(stamp) in t.Visible(InState);
  }

  lemma CopyBegunIsRefused(v: Volume, stamp: nat, f: File, raw: Content)
    requires Sane(v) && CorruptCopy(stamp) !in v.Visible(InState)
    requires StateJson in v.Visible(InState) && ReadsFile(v, v.Visible(InState))
    requires v.files[v.Visible(InState)[StateJson]].content == raw
    ensures var t := CopyBegun(v, stamp, f);
      && Sane(t) && t.Visible(InState) == v.Visible(InState)[CorruptCopy(stamp) := v.next]
      && (AllRefused(v) ==> AllRefused(t)) && (Evidence(v, raw) ==> Evidence(t, raw))
      && Widens(v, t, Refused) && SameShelves(v, t) && (Rooted(v) ==> Rooted(t))
      && Quarantined(t.Visible(InState))
  {
    CopyBegunIsSane(v, stamp, f);
    CopyBegunWidens(v, stamp, f);
    var t := CopyBegun(v, stamp, f);
    var last := v.Visible(InState);
    var d := last[CorruptCopy(stamp) := v.next];
    assert CorruptCopy(stamp) in d;
    assert EvidenceIn(t, d, raw) by {
      assert DirOk(v.files, v.next, last);
    }
    assert t.state == v.state + [d];
    hide DirOk, CopyBegun;
  }

  lemma SyncKeepsRefusal(v: Volume, raw: Content)
    requires Sane(v)
    ensures var t := v.SyncDir(InState);
      Sane(t) && (AllRefused(v) ==> AllRefused(t)) && (Evidence(v, raw) ==> Evidence(t, raw))
  {
    hide DirOk, Seen, EvidenceIn;
    SyncIsSafe(v, InState);
    var t := v.SyncDir(InState);
    if Evidence(v, raw) {
      forall d | d in t.state ensures EvidenceIn(t, d, raw) {
        assert EvidenceIn(v, d, raw);
        SameEvidence(v, t, d, raw);
      }
    }
  }

  lemma SameEvidence(v: Volume, t: Volume, d: Dir, raw: Content)
    requires EvidenceIn(v, d, raw) && t.files == v.files
    ensures EvidenceIn(t, d, raw)
  {
  }

  /** With a synced copy in place the invalid file may go. */
  lemma RemovalKeepsRefusal(v: Volume, stamp: nat, raw: Content)
    requires Sane(v) && CorruptCopy(stamp) in v.Visible(InState)
    requires var ino := v.Visible(InState)[CorruptCopy(stamp)]; ino in v.files && v.files[ino] == File(raw, true)
    ensures var t := v.Unlink(InState, StateJson);
      && Sane(t) && (AllRefused(v) ==> AllRefused(t)) && (Evidence(v, raw) ==> Evidence(t, raw))
      && CorruptCopy(stamp) in t.Visible(InState) && t.files == v.files
  {
    RemovalIsSane(v);
    var t, last := v.Unlink(InState, StateJson), v.Visible(InState);
    var d := last - {StateJson};
    if StateJson in last {
      assert CorruptCopy(stamp) in d;
      assert Quarantined(d) && EvidenceIn(t, d, raw);
      assert t.state == v.state + [d];
      hide DirOk;
    }
  }

  lemma QuarantineSettles(v: Volume, stamp: nat)
    requires Sane(v) && CorruptCopy(stamp) in v.Visible(InState)
    ensures var t := v.SyncDir(InState); Sane(t) && Only(t, Refused)
  {
    SyncIsSafe(v, InState);
    assert Quarantined(v.Visible(InState));
    hide DirOk;
  }

  lemma StaysAsItWas(v: Volume)
    requires Sane(v)
    ensures Widens(v, v, Refused)
  {
    forall d | d in v.state ensures ReadsFile(v, d) && Stems(v, v, d) {
      SaneReads(v, d);
    }
    hide DirOk, Seen;
  }

  lemma WidensOn(v: Volume, u: Volume, t: Volume, w: View)
    requires Sane(v) && Sane(u) && Widens(v, u, w) && Widens(u, t, w)
    ensures Widens(v, t, w)
  {
    hide DirOk, Seen;
    forall d | d in t.state ensures ReadsFile(t, d) && (Seen(t, d) == w || Stems(v, t, d)) {
      if Seen(t, d) != w {
        var o :| o in u.state && StemsFrom(u, o, t, d);
      }
    }
  }

  lemma SyncNarrows(v: Volume, w: View)
    requires Sane(v)
    ensures var t := v.SyncDir(InState); Widens(v, t, w) && SameShelves(v, t) && (Rooted(v) ==> Rooted(t))
  {
    SyncIsSafe(v, InState);
    hide DirOk, Seen, Kept;
  }

  lemma CopyIsRefusal(v: Volume, stamp: nat)
    requires v.state != [] && CorruptCopy(stamp) in v.Visible(InState)
    ensures Quarantined(v.Visible(InState))
  {
  }

  lemma RefusedRemoval(v: Volume, stamp: nat)
    requires Sane(v) && CorruptCopy(stamp) in v.Visible(InState)
    ensures var t := v.Unlink(InState, StateJson);
      Widens(v, t, Refused) && SameShelves(v, t) && (Rooted(v) ==> Rooted(t))
  {
    RemovalIsSane(v);
    var t, last := v.Unlink(InState, StateJson), v.Visible(InState);
    assert last in v.state;
    hide DirOk;
    forall d | d in t.state ensures ReadsFile(t, d) && (Seen(t, d) == Refused || Stems(v, t, d)) {
      if d in v.state {
        SaneReads(v, d) by {
          hide DirOk;
        }
        StillStems(v, t, d, d);
      } else {
        assert CorruptCopy(stamp) in d;
      }
    }
  }

  // ------------------------------------------------------------- power loss

  /** The machine comes back with one state of each directory; what was not synced may read as anything. */
  function AfterPowerLoss(v: Volume, d: Dir, h: Dir, noise: map<nat, Content>): Volume {
    v.(files := map i | i in v.files :: if v.files[i].synced then v.files[i]
                                         else File(if i in noise then noise[i] else Garbage, true),
       state := [d], history := [if HistoryDir in d then h else map[]])
  }

  lemma PowerLossPicks(v: Volume, d: Dir, h: Dir, noise: map<nat, Content>)
    requires Sane(v) && d in v.state && h in v.history
    ensures var t := AfterPowerLoss(v, d, h, noise);
      && Sane(t) && t.state == [d]
      && ReadsFile(t, d) && ReadsFile(v, d) && Seen(t, d) == Seen(v, d) && (Clean(v) ==> Clean(t))
    ensures forall a :: Kept(v, a) ==> Kept(AfterPowerLoss(v, d, h, noise), a)
  {
    var t := AfterPowerLoss(v, d, h, noise);
    assert DirOk(v.files, v.next, d) && DirOk(v.files, v.next, h);
    assert DirOk(t.files, t.next, d) && DirOk(t.files, t.next, t.history[0]);
    SaneReads(v, d);
    hide Seen, Quarantined;
    forall a | Kept(v, a) ensures Kept(t, a) {
      assert Archived(v, d, h, a);
    }
  }

  lemma OneRefused(v: Volume, d: Dir, h: Dir, noise: map<nat, Content>)
    requires Sane(v) && d in v.state && h in v.history
    ensures var t := AfterPowerLoss(v, d, h, noise); Sane(t) && (AllRefused(v) ==> AllRefused(t))
  {
    PowerLossPicks(v, d, h, noise);
    hide Seen, DirOk;
  }

  lemma PowerLossCopies(v: Volume, d: Dir, h: Dir, noise: map<nat, Content>)
    requires Sane(v) && d in v.state && h in v.history
    ensures SameCopies(v, h, AfterPowerLoss(v, d, h, noise), h)
  {
    hide ToDict;
    assert DirOk(v.files, v.next, h);
  }

  lemma PowerLossKeepsRefusal(v: Volume, d: Dir, h: Dir, noise: map<nat, Content>, raw: Content)
    requires Sane(v) && d in v.state && h in v.history && AllRefused(v) && Evidence(v, raw)
    ensures var t := AfterPowerLoss(v, d, h, noise); Sane(t) && AllRefused(t) && Evidence(t, raw)
  {
    PowerLossPicks(v, d, h, noise);
    assert DirOk(v.files, v.next, d);
    assert EvidenceIn(v, d, raw);
    hide Seen;
  }

  /** Why a write did not return, and whether it had already replaced its target. */
  datatype Stop = Stop(killed: bool, replaced: bool)
  datatype Refusal = StateRefused | StateTooNew | Interrupted(stop: Stop)
  datatype Fate = Fine | Breaks | Dies

  datatype Op = Saves(cycle: CycleState) | Archives(cycle: CycleState) | Loads(stamp: nat) | LosesPower

  // ------------------------------------------------------ sequences of operations

  /** What a load may find: nothing yet, a record, or nothing, with this record in the archive. */
  datatype Sight = Blank | Holding(cycle: CycleState) | Filed(cycle: CycleState)

  /** An operation as it went: whether it returned, what a load returned, and what a power loss left. */
  datatype Step =
    | Saved(cycle: CycleState, whole: bool) | Shelved(cycle: CycleState, whole: bool)
    | Looked(result: Result<Option<CycleState>, Refusal>) | PowerLost(found: Sight)

  /** What a load that finds this returns. */
  function Reading(x: Sight): Option<CycleState> {
    if x.Holding? then Some(x.cycle) else None
  }

  /** What an operation makes of the possibilities a load had. */
  function SightsOn(xs: set<Sight>, step: Step): set<Sight> {
    match step
    case Saved(c, whole) => if whole then {Holding(c)} else xs + {Holding(c)}
    case Shelved(c, whole) => if whole then {Filed(c)} else xs + {Filed(c)}
    case Looked(_) => xs
    case PowerLost(found) => {found}
  }

  /** The atomic cell: what a load may find after these operations. */
  function Sights(steps: seq<Step>): set<Sight> {
    if steps == [] then {Blank} else SightsOn(Sights(steps[..|steps| - 1]), steps[|steps| - 1])
  }

  /** What an operation makes of the copies that are in the archive for good. */
  function ShelfOn(m: map<string, CycleState>, step: Step): map<string, CycleState> {
    match step
    case Shelved(c, whole) =>
      if whole then m[c.runId := c] else if c.runId in m && m[c.runId] != c then m - {c.runId} else m
    case _ => m
  }

  function Shelf(steps: seq<Step>): map<string, CycleState> {
    if steps == [] then map[] else ShelfOn(Shelf(steps[..|steps| - 1]), steps[|steps| - 1])
  }

  ghost predicate AllKept(v: Volume, m: map<string, CycleState>) {
    forall r | r in m :: m[r].runId == r && Kept(v, m[r])
  }

  predicate Did(op: Op, step: Step) {
    match op
    case Saves(c) => step.Saved? && step.cycle == c
    case Archives(c) => step.Shelved? && step.cycle == c
    case Loads(_) => step.Looked?
    case LosesPower => step.PowerLost?
  }

  /** A power loss leaves one of these possibilities, and a load returns what one of them reads as. */
  predicate Fits(xs: set<Sight>, step: Step) {
    && (step.PowerLost? ==> step.found in xs)
    && (step.Looked? ==> exists x | x in xs :: step.result == Success(Reading(x)))
  }

  /** So it was with every operation, at its moment. */
  predicate Credible(steps: seq<Step>) {
    forall i | 0 <= i < |steps| :: Fits(Sights(steps[..i]), steps[i])
  }

  ghost predicate Shows(v: Volume, d: Dir, h: Dir, x: Sight) {
    && ReadsFile(v, d)
    && match x
       case Blank => Seen(v, d) == Nothing
       case Holding(c) => Seen(v, d) == Has(c)
       case Filed(c) => Seen(v, d) == Nothing && Archived(v, d, h, c)
  }

  ghost predicate ShowsOne(v: Volume, d: Dir, h: Dir, xs: set<Sight>) {
    exists x | x in xs :: Shows(v, d, h, x)
  }

  /** Every state the disk may come back in is one of these. */
  ghost predicate Covered(v: Volume, xs: set<Sight>) {
    forall d, h | d in v.state && h in v.history :: ShowsOne(v, d, h, xs)
  }

  lemma SightsAfter(steps: seq<Step>, step: Step)
    ensures Sights(steps + [step]) == SightsOn(Sights(steps), step)
    ensures Shelf(steps + [step]) == ShelfOn(Shelf(steps), step)
  {
    assert (steps + [step])[..|steps|] == steps;
  }

  lemma CredibleAfter(steps: seq<Step>, step: Step)
    requires Credible(steps) && Fits(Sights(steps), step)
    ensures Credible(steps + [step])
  {
    hide Sights, Fits;
    var longer := steps + [step];
    forall i | 0 <= i < |longer| ensures Fits(Sights(longer[..i]), longer[i]) {
      assert longer[..i] == if i == |steps| then steps else steps[..i];
    }
  }

  lemma FreshIsSane(v: Volume)
    requires v.state == [map[]] && v.history == [map[]] && v.files == map[]
    ensures Sane(v) && Clean(v) && Covered(v, {Blank})
  {
    forall d, h | d in v.state && h in v.history ensures ShowsOne(v, d, h, {Blank}) {
      assert Shows(v, d, h, Blank);
    }
  }

  /** What an old directory showed, one that stems from it shows, if the archive has not lost the copy. */
  lemma NothingDone(v: Volume)
    requires Covered(v, {Blank})
    ensures Covered(v, Sights([])) && AllKept(v, Shelf([])) && Credible([])
  {
    hide Covered;
  }

  lemma KeepsAll(v: Volume, t: Volume, m: map<string, CycleState>)
    requires AllKept(v, m) && forall a :: Kept(v, a) ==> Kept(t, a)
    ensures AllKept(t, m)
  {
    hide Kept;
  }

  lemma ArchivingIsSane(v: Volume, t: Volume, c: CycleState)
    requires Sane(v) && Archiving(v, t, c)
    ensures Sane(t) && Clean(t)
  {
    hide DirOk, Kept, Seen;
  }

  lemma ArchivedKept(v: Volume, t: Volume, c: CycleState, m: map<string, CycleState>, whole: bool)
    requires Sane(v) && Archiving(v, t, c) && AllKept(v, m) && (whole ==> Kept(t, c))
    ensures AllKept(t, ShelfOn(m, Shelved(c, whole)))
  {
    hide DirOk, Kept, Seen;
  }

  lemma StillShows(v: Volume, o: Dir, h: Dir, t: Volume, d: Dir, g: Dir, x: Sight)
    requires Shows(v, o, h, x) && StemsFrom(v, o, t, d)
    requires forall c | x == Filed(c) && HasCopy(v, h, c) :: HasCopy(t, g, c)
    ensures Shows(t, d, g, x)
  {
    hide Seen, HasCopy;
  }

  lemma StemsShows(v: Volume, t: Volume, d: Dir, h: Dir, g: Dir, xs: set<Sight>)
    requires Covered(v, xs) && Stems(v, t, d) && h in v.history && SameCopies(v, h, t, g)
    ensures ShowsOne(t, d, g, xs)
  {
    hide Seen, HasCopy, StemsFrom, Shows;
    var o :| o in v.state && StemsFrom(v, o, t, d);
    assert ShowsOne(v, o, h, xs);
    var x :| x in xs && Shows(v, o, h, x);
    StillShows(v, o, h, t, d, g, x);
  }

  lemma ShelvesStay(v: Volume, t: Volume)
    requires SameShelves(v, t)
    ensures forall h | h in t.history :: SameCopies(v, h, t, h)
  {
    hide ToDict;
  }

  lemma OnlyCovers(t: Volume, w: View, x: Sight)
    requires Sane(t) && Only(t, w)
    requires (x.Holding? && w == Has(x.cycle)) || (x.Filed? && w == Nothing && Kept(t, x.cycle))
    ensures Covered(t, {x})
  {
    hide Seen, DirOk, HasCopy;
    forall d, h | d in t.state && h in t.history ensures ShowsOne(t, d, h, {x}) {
      assert Shows(t, d, h, x);
    }
  }

  lemma SaveCovers(v: Volume, t: Volume, c: CycleState, xs: set<Sight>)
    requires Sane(v) && Covered(v, xs) && Widens(v, t, Has(c)) && SameShelves(v, t)
    ensures Covered(t, xs + {Holding(c)})
  {
    ShelvesStay(v, t);
    hide Seen, DirOk, HasCopy, SameCopies, Stems, Archived;
    forall d, h | d in t.state && h in t.history ensures ShowsOne(t, d, h, xs + {Holding(c)}) {
      if Seen(t, d) == Has(c) {
        assert Shows(t, d, h, Holding(c));
      } else {
        StemsShows(v, t, d, h, h, xs);
        var x :| x in xs && Shows(t, d, h, x);
      }
    }
  }

  /** With the copy of `c` put in, an archive still shows what it showed, or it shows `c`. */
  lemma NewCopyShows(v: Volume, o: Dir, t: Volume, d: Dir, g: Dir, c: CycleState, x: Sight)
    requires v.history != [] && Shows(v, o, v.Visible(InHistory), x) && StemsFrom(v, o, t, d) && NewCopies(v, t, g, c)
    ensures Shows(t, d, g, x) || Shows(t, d, g, Filed(c))
  {
    hide Seen, HasCopy;
    if !x.Filed? || x.cycle.runId != c.runId {
      StillShows(v, o, v.Visible(InHistory), t, d, g, x);
    }
  }

  lemma ArchiveCovers(v: Volume, t: Volume, c: CycleState, xs: set<Sight>)
    requires Sane(v) && Covered(v, xs) && Archiving(v, t, c) && forall h | h in t.history :: OldOrNewCopies(v, t, h, c)
    ensures Covered(t, xs + {Filed(c)})
  {
    forall d, h | d in t.state && h in t.history ensures ShowsOne(t, d, h, xs + {Filed(c)}) {
      ArchiveCoversOne(v, t, c, xs, d, h) by {
        hide Seen, DirOk, HasCopy, Covered, Sane, KeepsCopies, OldOrNewCopies;
      }
    }
  }

  lemma ArchiveCoversOne(v: Volume, t: Volume, c: CycleState, xs: set<Sight>, d: Dir, h: Dir)
    requires v.history != [] && Covered(v, xs) && OldOrNewCopies(v, t, h, c) && d in t.state && h in t.history
    requires Stems(v, t, d) || MovedAway(t, d, c)
    ensures ShowsOne(t, d, h, xs + {Filed(c)})
  {
    hide Seen, HasCopy, SameCopies, NewCopies, StemsFrom;
    if !Stems(v, t, d) {
      assert Shows(t, d, h, Filed(c));
    } else if o :| o in v.history && SameCopies(v, o, t, h) {
      StemsShows(v, t, d, o, h, xs);
      var x :| x in xs && Shows(t, d, h, x);
    } else {
      var o :| o in v.state && StemsFrom(v, o, t, d);
      assert ShowsOne(v, o, v.Visible(InHistory), xs);
      var x :| x in xs && Shows(v, o, v.Visible(InHistory), x);
      NewCopyShows(v, o, t, d, h, c, x);
    }
  }

  lemma LoadFinds(v: Volume, xs: set<Sight>)
    requires Sane(v) && Clean(v) && Covered(v, xs)
    ensures v.Visible(InState) in v.state && ReadsFile(v, v.Visible(InState))
    ensures exists x | x in xs :: Sees(v) == if x.Holding? then Has(x.cycle) else Nothing
  {
    SaneReads(v, v.Visible(InState));
    assert ShowsOne(v, v.Visible(InState), v.Visible(InHistory), xs);
    hide Seen;
  }

  /** The one state a power loss leaves shows one of the possibilities. */
  lemma PowerLossShows(v: Volume, t: Volume, xs: set<Sight>) returns (x: Sight)
    requires Sane(v) && Covered(v, xs) && |t.state| == 1 && t.state[0] in v.state
    requires ReadsFile(t, t.state[0]) && ReadsFile(v, t.state[0]) && Seen(t, t.state[0]) == Seen(v, t.state[0])
    requires |t.history| == 1
    requires exists h | h in v.history :: HistoryDir in t.state[0] ==> SameCopies(v, h, t, t.history[0])
    ensures x in xs && Covered(t, {x})
  {
    hide Seen, DirOk, HasCopy;
    var d := t.state[0];
    var h :| h in v.history && (HistoryDir in d ==> SameCopies(v, h, t, t.history[0]));
    assert ShowsOne(v, d, h, xs);
    x :| x in xs && Shows(v, d, h, x);
    assert Shows(t, d, t.history[0], x);
  }

  class Store {
    var v: Volume

    constructor (v0: Volume)
      ensures v == v0
    {
      v := v0;
    }

    method Pause() returns (f: Fate) {
      f := *;
    }

    /** `finally`: a failed write removes its temporary file, a killed one cannot. */
    method GiveUp(where: Where, tmp: FileName, f: Fate) returns (r: Result<(), Stop>)
      requires v.Of(where) != [] && !f.Fine?
      modifies this
      ensures r.Failure? && !r.error.replaced && v == if f.Breaks? then old(v).Unlink(where, tmp) else old(v)
    {
      if f.Breaks? {
        v := v.Unlink(where, tmp);
      }
      return Failure(Stop(f.Dies?, false));
    }

    /**
     Write, flush and sync a temporary file, rename it over the target, sync the directory. A failure before the
     rename removes the temporary file; a kill leaves it. However it ends, the old content or the new.
     */
    method AtomicWrite(where: Where, target: FileName, content: Content) returns (r: Result<(), Stop>)
      requires Sane(v) && !target.Temp?
      modifies this
      ensures Within(old(v), v, where, target, content)
      ensures r.Success? ==>
        v.Of(where) == [v.Visible(where)] && IsNew(old(v), v, where, target, content, v.Visible(where))
      ensures r.Failure? ==>
        && v.Of(where) != []
        && if r.error.replaced then IsNew(old(v), v, where, target, content, v.Visible(where))
           else Untouched(old(v), v, where)
    {
      hide Within, IsNew, DirOk, Untouched;
      ghost var v0 := v;
      var ino, tmp := v.next, Temp(v.next);
      TempIsHarmless(v0, where, target, content, File(Garbage, false));
      TempIsHarmless(v0, where, target, content, File(content, false));
      TempIsHarmless(v0, where, target, content, File(content, true));
      TempIsIgnored(v0, where, File(Garbage, false));
      TempIsIgnored(v0, where, File(content, false));
      TempIsIgnored(v0, where, File(content, true));
      ReplacedIsNew(v0, where, target, content);
      v := v.Create(where, tmp);
      var f := Pause();
      if !f.Fine? {
        r := GiveUp(where, tmp, f);
        return;
      }
      v := v.Write(ino, content);
      assert v.files == v0.files[ino := File(content, false)];
      f := Pause();
      if !f.Fine? {
        r := GiveUp(where, tmp, f);
        return;
      }
      v := v.SyncFile(ino);
      assert v.files == v0.files[ino := File(content, true)];
      f := Pause();
      if !f.Fine? {
        r := GiveUp(where, tmp, f);
        return;
      }
      v := v.Replace(where, tmp, target);
      f := Pause();
      if !f.Fine? {
        return Failure(Stop(f.Dies?, true));
      }
      v := v.SyncDir(where);
      return Success(());
    }

    /**
     `save`. However it ends, now or after a power loss, a load finds an old record or the new one; returning
     means the new one for certain. No archived cycle is touched.
     */
    method Save(c: CycleState) returns (r: Result<(), Stop>)
      requires Sane(v) && WellFormed(c) && Clean(v)
      modifies this
      ensures Sane(v) && Clean(v) && Widens(old(v), v, Has(c)) && SameShelves(old(v), v)
      ensures r.Success? ==> Only(v, Has(c))
      ensures r.Failure? ==>
        && ReadsFile(v, v.Visible(InState)) && old(ReadsFile(v, v.Visible(InState)))
        && Sees(v) == (if r.error.replaced then Has(c) else old(Sees(v)))
        && (!r.error.replaced ==> forall d | d in v.state :: Stems(old(v), v, d))
      ensures old(Rooted(v)) ==> Rooted(v)
      ensures forall a :: old(Kept(v, a)) ==> Kept(v, a)
    {
      hide ToDict, WellFormed, IsNew, Strip, DirOk, Seen, Clean, Kept, Only, Stems, Untouched;
      ghost var before := v;
      VisibleReads(v);
      r := AtomicWrite(InState, StateJson, Doc(Obj(ToDict(c))));
      SaveIsAtomic(before, v, c);
      forall a | Kept(before, a) ensures Kept(v, a) {
        SaveKeepsArchive(before, v, c, a);
      }
      if r.Success? {
        SaveSettles(before, v, c);
      } else {
        VisibleReads(v);
        SaveCutShort(before, v, c, r.error.replaced);
      }
    }

    /** The first half of `archive`: make the history directory, write the copy. A load sees nothing of it. */
    method PutCopy(c: CycleState) returns (r: Result<(), Stop>)
      requires Sane(v) && WellFormed(c) && Clean(v)
      modifies this
      ensures Quiet(old(v), v) && KeepsCopies(old(v), v, c)
      ensures old(Rooted(v)) ==> v.state == old(v).state
      ensures v.files.Keys >= old(v).files.Keys && forall i | i in old(v).files :: v.files[i] == old(v).files[i]
      ensures forall h | h in v.history :: OldOrNewCopies(old(v), v, h, c)
      ensures r.Success? ==>
        && HistoryDir in v.Visible(InState) && v.history == [v.Visible(InHistory)]
        && NewCopies(old(v), v, v.Visible(InHistory), c)
      ensures r.Failure? ==>
        if r.error.replaced then NewCopies(old(v), v, v.Visible(InHistory), c)
        else
          && SameCopies(old(v), old(v).Visible(InHistory), v, v.Visible(InHistory))
          && forall h | h in v.history :: OldCopies(old(v), v, h)
    {
      hide ToDict, WellFormed, IsNew, Strip, DirOk, Seen, Kept, Only, Stems, KeepsCopies, ReadsFile, MovedAway,
           OldOrNewCopies, NewCopies, SameCopies, Clean, WithHistory, OldOrNew, Untouched;
      ghost var v0 := v;
      ArchivingStart(v0, c);
      MkdirIsQuiet(v0);
      MkdirIsRooted(v0);
      MkdirKeeps(v0, c);
      v := WithHistory(v);
      QuietTrans(v0, v0, v, c);
      ghost var v1 := v;
      Standing(v0, v1, c);
      var f := Pause();
      if !f.Fine? {
        return Failure(Stop(f.Dies?, false));
      }
      r := AtomicWrite(InHistory, Record(c.runId), Doc(Obj(ToDict(c))));
      CopyStep(v1, v, c);
      QuietTrans(v0, v1, v, c);
      CopiesOldOrNew(v1, v, c);
      MkdirCopies(v0, v1, v, c);
      CopyPut(v0, v1, v, c, r.Success? || r.error.replaced);
    }

    /** The second half: remove the active record, whose copy is in place. */
    method RemoveActive(ghost c: CycleState) returns (r: Result<(), Stop>)
      requires Sane(v) && Clean(v) && HistoryDir in v.Visible(InState) && forall h | h in v.history :: HasCopy(v, h, c)
      modifies this
      ensures Archiving(old(v), v, c) && Widens(old(v), v, Nothing) && SameShelves(old(v), v)
      ensures v.state != [] && ReadsFile(v, v.Visible(InState)) && Sees(v) == Nothing
      ensures r.Success? ==> Only(v, Nothing) && Kept(v, c)
      ensures old(Rooted(v)) ==> Rooted(v)
    {
      hide ToDict, DirOk, Seen, Kept, Only, Stems, KeepsCopies, ReadsFile, MovedAway, Clean, Quiet;
      ghost var v0 := v;
      ArchivingStart(v0, c);
      RemovalStep(v0, v0, c);
      RemovalSees(v0, c);
      v := v.Unlink(InState, StateJson);
      var f := Pause();
      if !f.Fine? {
        return Failure(Stop(f.Dies?, true));
      }
      ghost var v1 := v;
      SyncStep(v0, v1, c);
      RemovalSettles(v1, c);
      v := v.SyncDir(InState);
      RemovalSynced(v0, v1, c);
      return Success(());
    }

    /**
     `archive`: write the copy, then remove the active record. However it ends, an active record is missing only
     where the copy survives; archiving again is harmless; returning means archived for certain.
     */
    method Archive(c: CycleState) returns (r: Result<(), Stop>)
      requires Sane(v) && WellFormed(c) && Clean(v)
      modifies this
      ensures Archiving(old(v), v, c)
      ensures forall h | h in v.history :: OldOrNewCopies(old(v), v, h, c)
      ensures r.Success? ==> Only(v, Nothing) && Kept(v, c)
    {
      hide ToDict, WellFormed, DirOk, Seen, Kept, Only, Stems, KeepsCopies, ReadsFile, MovedAway, OldOrNewCopies,
           HasCopy, SameCopies;
      ghost var v0 := v;
      ArchivingStart(v0, c);
      var copied := PutCopy(c);
      QuietTrans(v0, v0, v, c);
      var _ :- copied;
      ghost var v1 := v;
      r := RemoveActive(c);
      ArchivingTrans(v0, v1, v, c);
      SameShelvesNew(v0, v1, v, c);
    }

    /** Copy the bytes aside, durably, before the file goes; a load refuses at every moment in between. */
    method Quarantine(stamp: nat, raw: Content) returns (r: Result<(), Stop>)
      requires Sane(v) && StateJson in v.Visible(InState) && ReadsFile(v, v.Visible(InState))
      requires v.files[v.Visible(InState)[StateJson]].content == raw
      modifies this
      ensures Sane(v) && SameShelves(old(v), v) && Widens(old(v), v, Refused)
      ensures old(AllRefused(v)) ==> AllRefused(v)
      ensures old(Evidence(v, raw)) ==> Evidence(v, raw)
      ensures old(Rooted(v)) ==> Rooted(v)
      ensures r.Success? ==> Only(v, Refused)
      ensures r.Failure? ==> if r.error.replaced then Quarantined(v.Visible(InState)) else v == old(v)
    {
      hide DirOk, Seen, AllRefused, Evidence, ReadsFile, Only, Widens, Quarantined;
      ghost var v0 := v;
      StaysAsItWas(v0);
      if CorruptCopy(stamp) in v.Visible(InState) {
        return Failure(Stop(false, false));    // O_EXCL
      }
      var ino := v.next;
      CopyBegunIsRefused(v0, stamp, File(Garbage, false), raw);
      CopyBegunIsRefused(v0, stamp, File(raw, false), raw);
      CopyBegunIsRefused(v0, stamp, File(raw, true), raw);
      v := v.Create(InState, CorruptCopy(stamp));
      assert v == CopyBegun(v0, stamp, File(Garbage, false));
      var f := Pause();
      if !f.Fine? {
        return Failure(Stop(f.Dies?, true));
      }
      v := v.Write(ino, raw);
      assert v.files == v0.files[ino := File(raw, false)];
      assert v == CopyBegun(v0, stamp, File(raw, false));
      f := Pause();
      if !f.Fine? {
        return Failure(Stop(f.Dies?, true));
      }
      v := v.SyncFile(ino);
      assert v.files == v0.files[ino := File(raw, true)];
      assert v == CopyBegun(v0, stamp, File(raw, true));
      f := Pause();
      if !f.Fine? {
        return Failure(Stop(f.Dies?, true));
      }
      ghost var v1 := v;
      r := FinishQuarantine(stamp, raw);
      WidensOn(v0, v1, v, Refused);
    }

    method FinishQuarantine(stamp: nat, raw: Content) returns (r: Result<(), Stop>)
      requires Sane(v) && CorruptCopy(stamp) in v.Visible(InState)
      requires var ino := v.Visible(InState)[CorruptCopy(stamp)]; ino in v.files && v.files[ino] == File(raw, true)
      modifies this
      ensures Sane(v) && SameShelves(old(v), v) && Widens(old(v), v, Refused)
      ensures old(AllRefused(v)) ==> AllRefused(v)
      ensures old(Evidence(v, raw)) ==> Evidence(v, raw)
      ensures old(Rooted(v)) ==> Rooted(v)
      ensures Quarantined(v.Visible(InState))
      ensures r.Success? ==> Only(v, Refused)
      ensures r.Failure? ==> r.error.replaced
    {
      hide DirOk, Seen, AllRefused, Evidence, Only, Widens, Quarantined;
      ghost var v0 := v;
      SyncKeepsRefusal(v, raw);
      SyncNarrows(v, Refused);
      v := v.SyncDir(InState);
      CopyIsRefusal(v, stamp);
      var f := Pause();
      if !f.Fine? {
        return Failure(Stop(f.Dies?, true));
      }
      ghost var v1 := v;
      RemovalKeepsRefusal(v, stamp, raw);
      RefusedRemoval(v, stamp);
      v := v.Unlink(InState, StateJson);
      WidensOn(v0, v1, v, Refused);
      CopyIsRefusal(v, stamp);
      f := Pause();
      if !f.Fine? {
        return Failure(Stop(f.Dies?, true));
      }
      ghost var v2 := v;
      SyncKeepsRefusal(v, raw);
      SyncNarrows(v, Refused);
      QuarantineSettles(v, stamp);
      v := v.SyncDir(InState);
      WidensOn(v0, v2, v, Refused);
      CopyIsRefusal(v, stamp);
      return Success(());
    }

    /** `load`: refuse what was set aside, set aside what is invalid, refuse a newer schema untouched. */
    method Load(stamp: nat) returns (r: Result<Option<CycleState>, Refusal>)
      requires Sane(v) && ReadsFile(v, v.Visible(InState))
      modifies this
      ensures Sane(v) && SameShelves(old(v), v) && (old(Rooted(v)) ==> Rooted(v))
      ensures match old(Sees(v))
        case Nothing => v == old(v) && r == Success(None)
        case Has(c) => v == old(v) && r == Success(Some(c))
        case Refused => v == old(v) && r == Failure(StateRefused)
        case TooNew => v == old(v) && r == Failure(StateTooNew)
        case Invalid =>
          && r.Failure? && !r.error.StateTooNew? && (r.error.StateRefused? ==> Only(v, Refused))
          && (r.error.Interrupted? ==>
                if r.error.stop.replaced then Quarantined(v.Visible(InState)) && Widens(old(v), v, Refused)
                else v == old(v))
      ensures old(AllRefused(v)) ==> AllRefused(v) && r.Failure?
      ensures forall raw :: old(AllRefused(v) && Evidence(v, raw)) ==> Evidence(v, raw)
    {
      hide DirOk, FromDict;
      var d := v.Visible(InState);
      assert d in v.state;
      if Quarantined(d) {
        return Failure(StateRefused);
      }
      if StateJson !in d {
        return Success(None);
      }
      var raw := v.files[d[StateJson]].content;
      var view := Parse(raw);
      if view.Has? {
        return Success(Some(view.cycle));
      }
      if view.TooNew? {
        return Failure(StateTooNew);
      }
      assert forall e :: Evidence(v, e) ==> EvidenceIn(v, d, e);
      assert forall e :: Evidence(v, e) ==> e == raw;
      hide Evidence, AllRefused, Only, Seen, Widens, Rooted, Quarantined;
      var aside := Quarantine(stamp, raw);
      return Failure(if aside.Success? then StateRefused else Interrupted(aside.error));
    }

    /** The power goes. The next boot finds one possible state of each directory. */
    method LosePower()
      requires Sane(v)
      modifies this
      ensures Sane(v) && |v.state| == 1 && v.state[0] in old(v).state
      ensures var d := v.state[0]; ReadsFile(v, d) && ReadsFile(old(v), d) && Seen(v, d) == Seen(old(v), d)
      ensures old(Clean(v)) ==> Clean(v)
      ensures old(AllRefused(v)) ==> AllRefused(v)
      ensures forall raw :: old(AllRefused(v) && Evidence(v, raw)) ==> Evidence(v, raw)
      ensures forall a :: old(Kept(v, a)) ==> Kept(v, a)
      ensures old(Rooted(v)) ==> Rooted(v)
      ensures |v.history| == 1
      ensures exists h | h in old(v).history :: HistoryDir in v.state[0] ==> SameCopies(old(v), h, v, v.history[0])
    {
      hide DirOk, Seen, Kept, Clean, Evidence, AllRefused, SameCopies;
      var i: nat, j: nat, noise: map<nat, Content> := *, *, *;
      var d, h := v.state[i % |v.state|], v.history[j % |v.history|];
      ghost var before := v;
      PowerLossPicks(v, d, h, noise);
      forall raw | AllRefused(v) && Evidence(v, raw) ensures Evidence(AfterPowerLoss(v, d, h, noise), raw) {
        PowerLossKeepsRefusal(v, d, h, noise, raw);
      }
      OneRefused(v, d, h, noise);
      PowerLossCopies(v, d, h, noise);
      hide AfterPowerLoss, ReadsFile;
      v := AfterPowerLoss(v, d, h, noise);
    }

    /**
     Any sequence of saves, archivings, loads and power losses on a fresh disk, each cut short anywhere. The store
     is an atomic cell: after a save that returned, a load finds that record; after one cut short, that record or
     what it might have found before; nothing only before the first save, or where the archive has the record;
     after a power loss one possibility is left. Every load returns what one of the possibilities of its moment
     reads as. Nothing is ever quarantined; what was archived stays archived.
     */
    method Live(ops: seq<Op>) returns (ghost steps: seq<Step>)
      requires v.state == [map[]] && v.history == [map[]] && v.files == map[]
      requires forall o | o in ops && (o.Saves? || o.Archives?) :: WellFormed(o.cycle)
      modifies this
      ensures |steps| == |ops| && (forall i | 0 <= i < |ops| :: Did(ops[i], steps[i])) && Credible(steps)
      ensures Sane(v) && Clean(v) && Covered(v, Sights(steps)) && AllKept(v, Shelf(steps))
    {
      hide DirOk, Seen, Kept, WellFormed, ToDict, Covered, Sights, Shelf, AllKept, Sane, Clean, Credible, Fits;
      steps := [];
      FreshIsSane(v);
      NothingDone(v);
      for i := 0 to |ops|
        invariant Sane(v) && Clean(v) && Covered(v, Sights(steps)) && AllKept(v, Shelf(steps)) && Credible(steps)
        invariant |steps| == i && forall k | 0 <= k < i :: Did(ops[k], steps[k])
      {
        ghost var step := Do(ops[i], Sights(steps), Shelf(steps));
        SightsAfter(steps, step);
        CredibleAfter(steps, step);
        steps := steps + [step];
      }
    }

    /** One operation, and what it makes of the possibilities. */
    method Do(op: Op, ghost xs: set<Sight>, ghost m: map<string, CycleState>) returns (ghost step: Step)
      requires Sane(v) && Clean(v) && Covered(v, xs) && AllKept(v, m)
      requires op.Saves? || op.Archives? ==> WellFormed(op.cycle)
      modifies this
      ensures Sane(v) && Clean(v) && Did(op, step) && Fits(xs, step)
      ensures Covered(v, SightsOn(xs, step)) && AllKept(v, ShelfOn(m, step))
    {
      hide DirOk, Seen, Kept, WellFormed, ToDict, Only, Evidence, AllRefused, Covered, Widens, SameShelves, Archiving,
           OldOrNewCopies, SameCopies, Rooted, AllKept;
      ghost var before := v;
      match op {
        case Saves(c) =>
          var r := Save(c);
          step := Saved(c, r.Success?);
          SaveCovers(before, v, c, xs);
          if r.Success? {
            OnlyCovers(v, Has(c), Holding(c));
          }
          KeepsAll(before, v, m);
        case Archives(c) =>
          var r := Archive(c);
          step := Shelved(c, r.Success?);
          ArchivingIsSane(before, v, c);
          ArchiveCovers(before, v, c, xs);
          if r.Success? {
            OnlyCovers(v, Nothing, Filed(c));
          }
          ArchivedKept(before, v, c, m, r.Success?);
        case Loads(stamp) =>
          LoadFinds(v, xs);
          var found := Load(stamp);
          step := Looked(found);
        case LosesPower =>
          LosePower();
          ghost var found := PowerLossShows(before, v, xs);
          step := PowerLost(found);
          KeepsAll(before, v, m);
      }
    }

    /**
     Refusal is sticky: once every state the disk may come back in is refused, every load of any process refuses,
     across interrupted quarantines and power losses, and the invalid bytes are still there.
     */
    method StayRefused(stamps: seq<Option<nat>>, ghost raw: Content) returns (refused: seq<bool>)
      requires Sane(v) && AllRefused(v) && Evidence(v, raw)
      modifies this
      ensures Sane(v) && AllRefused(v) && Evidence(v, raw)
      ensures |refused| == |stamps| && forall i | 0 <= i < |stamps| && stamps[i].Some? :: refused[i]
    {
      hide DirOk, Seen, Kept, Only, Evidence, Widens, SameShelves, SameCopies, Rooted, Clean;
      refused := [];
      for i := 0 to |stamps|
        invariant Sane(v) && AllRefused(v) && Evidence(v, raw)
        invariant |refused| == i && forall k | 0 <= k < i && stamps[k].Some? :: refused[k]
      {
        match stamps[i] {
          case Some(stamp) =>
            var r := Load(stamp);
            refused := refused + [r.Failure?];
          case None =>
            LosePower();
            refused := refused + [false];
        }
      }
    }
  }
}
