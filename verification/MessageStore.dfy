/**
 The store of unacknowledged messages: one index by delivery tag, one by guid.
 */
module MessageStore {
  import opened Wrappers

  type Guid = nat
  type Tag = nat

  datatype Entry<M> = Entry(guid: Guid, message: M, insertTime: int)

  type Listing<M> = seq<(Tag, Entry<M>)>

  // ---- Iterating a map keyed by tag in ascending order ----

  lemma {:induction false} LeastExists(s: set<nat>, x: nat)
    requires x in s
    ensures exists m :: m in s && forall y | y in s :: m <= y
    decreases x
  {
    if y :| y in s && y < x {
      LeastExists(s, y);
    }
  }

  function Least(s: set<nat>): (m: nat)
    requires s != {}
    ensures m in s && forall y | y in s :: m <= y
  {
    assert exists m :: m in s && forall y | y in s :: m <= y by {
      var x :| x in s;
      LeastExists(s, x);
    }
    var m :| m in s && forall y | y in s :: m <= y;
    m
  }

  function Ascending<M>(m: map<Tag, Entry<M>>): Listing<M>
    decreases |m.Keys|
  {
    if m.Keys == {} then []
    else
      var t := Least(m.Keys);
      assert (m - {t}).Keys == m.Keys - {t};
      [(t, m[t])] + Ascending(m - {t})
  }

  /** `Ascending` lists exactly the map's entries. */
  lemma {:induction false} AscendingLists<M>(m: map<Tag, Entry<M>>, t: Tag, e: Entry<M>)
    ensures (t, e) in Ascending(m) <==> t in m && m[t] == e
    decreases |m.Keys|
  {
    if m.Keys != {} {
      var least := Least(m.Keys);
      assert (m - {least}).Keys == m.Keys - {least};
      AscendingLists(m - {least}, t, e);
    }
  }

  /** `Ascending` lists tags in strictly increasing order. */
  lemma {:induction false} AscendingOrdered<M>(m: map<Tag, Entry<M>>)
    ensures forall i, j | 0 <= i < j < |Ascending(m)| :: Ascending(m)[i].0 < Ascending(m)[j].0
    decreases |m.Keys|
  {
    if m.Keys != {} {
      var t := Least(m.Keys);
      var rest := Ascending(m - {t});
      assert (m - {t}).Keys == m.Keys - {t};
      AscendingOrdered(m - {t});
      forall j | 0 <= j < |rest| ensures t < rest[j].0 {
        AscendingLists(m - {t}, rest[j].0, rest[j].1);
        assert rest[j] in rest;
      }
    }
  }

  function UpTo<M>(m: map<Tag, Entry<M>>, tag: Tag): map<Tag, Entry<M>> {
    map t | t in m && t <= tag :: m[t]
  }

  function Above<M>(m: map<Tag, Entry<M>>, tag: Tag): map<Tag, Entry<M>> {
    map t | t in m && tag < t :: m[t]
  }

  function GuidsOf<M>(m: map<Tag, Entry<M>>): set<Guid> {
    set t | t in m :: m[t].guid
  }

  /** The entries inserted no later than `time`. */
  function Older<M>(m: map<Tag, Entry<M>>, time: int): map<Tag, Entry<M>> {
    map t | t in m && m[t].insertTime <= time :: m[t]
  }

  /** The contents of a store, and what each operation makes of them. */
  datatype Store<M> = Store(byTag: map<Tag, Entry<M>>, byGuid: map<Guid, Tag>, latestTagTilNow: nat, lifetimeId: nat)
  {
    function Insert(tag: Tag, e: Entry<M>): Store<M> {
      if tag in byTag then this
      else
        this.(byTag := byTag[tag := e],
        byGuid := if e.guid in byGuid then byGuid else byGuid[e.guid := tag],
        latestTagTilNow := if latestTagTilNow < tag then tag else latestTagTilNow)
    }

    function Remove(tag: Tag): Store<M> {
      if tag !in byTag then this
      else this.(byTag := byTag - {tag}, byGuid := byGuid - {byTag[tag].guid})
    }

    function RemoveUntil(tag: Tag): Store<M> {
      if tag !in byTag then this
      else this.(byTag := Above(byTag, tag), byGuid := byGuid - GuidsOf(UpTo(byTag, tag)))
    }

    function RemovedUntil(tag: Tag): Listing<M> {
      if tag !in byTag then [] else Ascending(UpTo(byTag, tag))
    }

    /** Swapping with a fresh store, as both channels do when they are reset. */
    function SwapOut(): Store<M> {
      Store(map[], map[], 0, lifetimeId + 1)
    }

    /** Every guid-index entry points to a live entry with that guid. */
    ghost predicate IndexSound() {
      forall g | g in byGuid :: byGuid[g] in byTag && byTag[byGuid[g]].guid == g
    }

    ghost predicate DistinctGuids() {
      forall t, u | t in byTag && u in byTag && t != u :: byTag[t].guid != byTag[u].guid
    }

    /** Every live entry can be found by its guid. */
    ghost predicate IndexComplete() {
      forall t | t in byTag :: byTag[t].guid in byGuid && byGuid[byTag[t].guid] == t
    }

    /** Insert times never decrease as tags increase. */
    ghost predicate TimesOrdered() {
      forall t, u | t in byTag && u in byTag && t < u :: byTag[t].insertTime <= byTag[u].insertTime
    }
  }

  function Empty<M>(): Store<M> {
    Store(map[], map[], 0, 0)
  }

  /** Taking the oldest entry off a walk which stops at `tag`. */
  lemma UpToStep<M>(m: map<Tag, Entry<M>>, tag: Tag, guids: map<Guid, Tag>, done: Listing<M>)
    requires m.Keys != {} && Least(m.Keys) <= tag
    ensures var t := Least(m.Keys);
      && Above(m - {t}, tag) == Above(m, tag)
      && done + Ascending(UpTo(m, tag)) == done + [(t, m[t])] + Ascending(UpTo(m - {t}, tag))
      && guids - GuidsOf(UpTo(m, tag)) == (guids - {m[t].guid}) - GuidsOf(UpTo(m - {t}, tag))
  {
    var t := Least(m.Keys);
    assert t in UpTo(m, tag) && Least(UpTo(m, tag).Keys) == t;
    assert UpTo(m - {t}, tag) == UpTo(m, tag) - {t};
    assert Ascending(UpTo(m, tag)) == [(t, m[t])] + Ascending(UpTo(m - {t}, tag));
    forall g ensures g in GuidsOf(UpTo(m, tag)) <==> g == m[t].guid || g in GuidsOf(UpTo(m - {t}, tag)) {
      if g in GuidsOf(UpTo(m, tag)) && g != m[t].guid {
        var u :| u in UpTo(m, tag) && m[u].guid == g;
        assert u in UpTo(m - {t}, tag);
      }
    }
  }

  lemma NothingUpTo<M>(m: map<Tag, Entry<M>>, tag: Tag, guids: map<Guid, Tag>, done: Listing<M>)
    requires m.Keys != {} ==> Least(m.Keys) > tag
    ensures done + Ascending(UpTo(m, tag)) == done
    ensures Above(m, tag) == m
    ensures guids - GuidsOf(UpTo(m, tag)) == guids
  {
    assert UpTo(m, tag) == map[];
    assert GuidsOf(UpTo(m, tag)) == {};
  }

  lemma OlderStep<M>(m: map<Tag, Entry<M>>, time: int)
    requires m.Keys != {} && m[Least(m.Keys)].insertTime <= time
    ensures Older(m, time).Keys != {} && Least(Older(m, time).Keys) == Least(m.Keys)
    ensures Older(m - {Least(m.Keys)}, time) == Older(m, time) - {Least(m.Keys)}
  {
    assert Least(m.Keys) in Older(m, time);
  }

  lemma AscendingStep<M>(m: map<Tag, Entry<M>>, t: Tag, rest: map<Tag, Entry<M>>, done: Listing<M>)
    requires m.Keys != {} && t == Least(m.Keys) && rest == m - {t}
    ensures done + Ascending(m) == done + [(t, m[t])] + Ascending(rest)
  {
  }

  lemma NothingOlder<M>(m: map<Tag, Entry<M>>, time: int)
    requires m.Keys != {} ==> m[Least(m.Keys)].insertTime > time
    requires forall t, u | t in m && u in m && t < u :: m[t].insertTime <= m[u].insertTime
    ensures Ascending(Older(m, time)) == []
  {
    forall u | u in m ensures m[u].insertTime > time {
      assert Least(m.Keys) <= u;
    }
    assert Older(m, time) == map[];
  }

  /** The loop of `removeUntil`: walks the entries from the oldest up to `tag`,
      erasing each from the guid index. */
  method WalkUntil<M>(m: map<Tag, Entry<M>>, guids: map<Guid, Tag>, tag: Tag)
    returns (removed: Listing<M>, rest: map<Tag, Entry<M>>, erased: map<Guid, Tag>)
    ensures removed == Ascending(UpTo(m, tag))
    ensures rest == Above(m, tag)
    ensures erased == guids - GuidsOf(UpTo(m, tag))
  {
    removed, rest, erased := [], m, guids;
    while rest.Keys != {} && Least(rest.Keys) <= tag
      invariant Above(rest, tag) == Above(m, tag)
      invariant removed + Ascending(UpTo(rest, tag)) == Ascending(UpTo(m, tag))
      invariant erased - GuidsOf(UpTo(rest, tag)) == guids - GuidsOf(UpTo(m, tag))
      decreases |rest.Keys|
    {
      var t := Least(rest.Keys);
      UpToStep(rest, tag, erased, removed);
      erased := erased - {rest[t].guid};
      removed := removed + [(t, rest[t])];
      assert (rest - {t}).Keys == rest.Keys - {t};
      rest := rest - {t};
    }
    NothingUpTo(rest, tag, erased, removed);
  }

  class MessageStore<M> {
    var byTag: map<Tag, Entry<M>>
    var byGuid: map<Guid, Tag>
    var latestTagTilNow: nat
    var lifetimeId: nat

    function View(): Store<M>
      reads this
    {
      Store(byTag, byGuid, latestTagTilNow, lifetimeId)
    }

    constructor ()
      ensures View() == Empty()
    {
      byTag, byGuid, latestTagTilNow, lifetimeId := map[], map[], 0, 0;
    }

    method Insert(tag: Tag, e: Entry<M>) returns (ok: bool)
      modifies this
      ensures ok <==> tag !in old(byTag)
      ensures View() == old(View()).Insert(tag, e)
    {
      if tag in byTag {
        return false;
      }
      byTag := byTag[tag := e];
      if e.guid !in byGuid {
        byGuid := byGuid[e.guid := tag];
      }
      if latestTagTilNow < tag {
        latestTagTilNow := tag;
      }
      return true;
    }

    method LookupGuid(guid: Guid) returns (found: Option<(Tag, Entry<M>)>)
      requires View().IndexSound()
      ensures found.Some? <==> guid in byGuid
      ensures found.Some? ==> found.value.0 == byGuid[guid] && found.value.0 in byTag
      ensures found.Some? ==> byTag[found.value.0] == found.value.1
      ensures found.Some? ==> found.value.1.guid == guid
      ensures View().IndexComplete() && found.None? ==> forall t | t in byTag :: byTag[t].guid != guid
    {
      if guid !in byGuid {
        return None;
      }
      return Some((byGuid[guid], byTag[byGuid[guid]]));
    }

    method Remove(tag: Tag) returns (removed: Option<Entry<M>>)
      modifies this
      ensures removed == if tag in old(byTag) then Some(old(byTag)[tag]) else None
      ensures View() == old(View()).Remove(tag)
    {
      if tag !in byTag {
        return None;
      }
      removed := Some(byTag[tag]);
      byTag := byTag - {tag};
      byGuid := byGuid - {removed.value.guid};
    }

    method RemoveUntil(tag: Tag) returns (removed: Listing<M>)
      modifies this
      ensures removed == old(View()).RemovedUntil(tag)
      ensures View() == old(View()).RemoveUntil(tag)
    {
      if tag !in byTag {
        return [];
      }
      removed, byTag, byGuid := WalkUntil(byTag, byGuid, tag);
    }

    method Swap(other: MessageStore<M>)
      requires other != this
      modifies this, other
      ensures View() == old(other.View()).(lifetimeId := old(lifetimeId) + 1)
      ensures other.View() == old(View()).(lifetimeId := old(other.lifetimeId))
    {
      byTag, other.byTag := other.byTag, byTag;
      byGuid, other.byGuid := other.byGuid, byGuid;
      latestTagTilNow, other.latestTagTilNow := other.latestTagTilNow, latestTagTilNow;
      lifetimeId := lifetimeId + 1;
    }

    /** Stops at the first entry newer than `time`; with ordered insert times
        that loses nothing. */
    method GetMessagesOlderThan(time: int) returns (older: Listing<M>)
      ensures older <= Ascending(byTag)
      ensures View().TimesOrdered() ==> older == Ascending(Older(byTag, time))
    {
      older := [];
      var it := byTag;
      while it.Keys != {} && it[Least(it.Keys)].insertTime <= time
        invariant it.Keys <= byTag.Keys && forall t | t in it :: it[t] == byTag[t]
        invariant older + Ascending(it) == Ascending(byTag)
        invariant older + Ascending(Older(it, time)) == Ascending(Older(byTag, time))
        decreases |it.Keys|
      {
        var t := Least(it.Keys);
        OlderStep(it, time);
        AscendingStep(it, t, it - {t}, older);
        AscendingStep(Older(it, time), t, Older(it - {t}, time), older);
        assert (it - {t}).Keys == it.Keys - {t};
        older := older + [(t, it[t])];
        it := it - {t};
      }
      if View().TimesOrdered() {
        NothingOlder(it, time);
      }
    }
  }

  // ---- Whole runs ----

  datatype Op<M> =
    | DoInsert(tag: Tag, entry: Entry<M>)
    | DoRemove(tag: Tag)
    | DoRemoveUntil(tag: Tag)
    | DoSwap

  function Apply<M>(s: Store<M>, op: Op<M>): Store<M> {
    match op
    case DoInsert(tag, e) => s.Insert(tag, e)
    case DoRemove(tag) => s.Remove(tag)
    case DoRemoveUntil(tag) => s.RemoveUntil(tag)
    case DoSwap => s.SwapOut()
  }

  function Run<M>(ops: seq<Op<M>>): Store<M> {
    if ops == [] then Empty() else Apply(Run(ops[..|ops| - 1]), ops[|ops| - 1])
  }

  /** The entry inserted first under a tag that was free, until it is removed: alone, up
      to a later live tag, or by a swap. */
  function Live<M>(ops: seq<Op<M>>, t: Tag): Option<Entry<M>> {
    if ops == [] then None
    else
      var earlier, before := ops[..|ops| - 1], Live(ops[..|ops| - 1], t);
      match ops[|ops| - 1]
      case DoInsert(tag, e) => if tag == t && before.None? then Some(e) else before
      case DoRemove(tag) => if tag == t then None else before
      case DoRemoveUntil(tag) => if t <= tag && Live(earlier, tag).Some? then None else before
      case DoSwap => None
  }

  /** In every run the store holds exactly the live entries. */
  lemma {:induction false} LiveExactly<M>(ops: seq<Op<M>>, t: Tag)
    ensures Live(ops, t) == if t in Run(ops).byTag then Some(Run(ops).byTag[t]) else None
  {
    if ops != [] {
      var op := ops[|ops| - 1];
      LiveExactly(ops[..|ops| - 1], t);
      if op.DoRemoveUntil? {
        LiveExactly(ops[..|ops| - 1], op.tag);
      }
    }
  }

  /** The tags inserted since the last swap. */
  function InsertedSince<M>(ops: seq<Op<M>>): set<Tag> {
    if ops == [] then {}
    else match ops[|ops| - 1]
      case DoInsert(tag, _) => InsertedSince(ops[..|ops| - 1]) + {tag}
      case DoSwap => {}
      case _ => InsertedSince(ops[..|ops| - 1])
  }

  /** In every run the latest tag is the highest inserted since the last swap. */
  lemma {:induction false} LatestIsHighest<M>(ops: seq<Op<M>>)
    ensures var latest, tags := Run(ops).latestTagTilNow, InsertedSince(ops);
      && (forall t | t in tags :: t <= latest)
      && (latest == 0 || latest in tags)
      && Run(ops).byTag.Keys <= tags
  {
    if ops != [] {
      LatestIsHighest(ops[..|ops| - 1]);
    }
  }

  /** An insertion that takes effect with a guid which is already live. */
  ghost predicate Duplicates<M>(s: Store<M>, op: Op<M>) {
    op.DoInsert? && op.tag !in s.byTag && op.entry.guid in GuidsOf(s.byTag)
  }

  ghost predicate NeverDuplicates<M>(ops: seq<Op<M>>) {
    forall i | 0 <= i < |ops| :: !Duplicates(Run(ops[..i]), ops[i])
  }

  lemma ApplySound<M>(s: Store<M>, op: Op<M>)
    requires s.IndexSound()
    ensures Apply(s, op).IndexSound()
  {
    if op.DoRemoveUntil? && op.tag in s.byTag {
      forall g | g in s.byGuid && s.byGuid[g] <= op.tag ensures g in GuidsOf(UpTo(s.byTag, op.tag)) {
        assert s.byGuid[g] in UpTo(s.byTag, op.tag);
      }
    }
  }

  lemma ApplyComplete<M>(s: Store<M>, op: Op<M>)
    requires s.IndexSound() && s.DistinctGuids() && s.IndexComplete()
    requires !Duplicates(s, op)
    ensures Apply(s, op).DistinctGuids() && Apply(s, op).IndexComplete()
  {
    if op.DoInsert? && op.tag !in s.byTag {
      forall t | t in s.byTag ensures s.byTag[t].guid != op.entry.guid {
        assert s.byTag[t].guid in GuidsOf(s.byTag);
      }
      assert op.entry.guid !in s.byGuid;
    }
  }

  /** In every run, duplicate guids included, the guid index never dangles; in
      every run without them it is complete. */
  lemma {:induction false} IndexInvariant<M>(ops: seq<Op<M>>)
    ensures Run(ops).IndexSound()
    ensures NeverDuplicates(ops) ==> Run(ops).DistinctGuids() && Run(ops).IndexComplete()
  {
    if ops != [] {
      var n := |ops| - 1;
      IndexInvariant(ops[..n]);
      ApplySound(Run(ops[..n]), ops[n]);
      if NeverDuplicates(ops) {
        forall i | 0 <= i < n
          ensures !Duplicates(Run(ops[..n][..i]), ops[..n][i])
        {
          assert ops[..n][..i] == ops[..i] && ops[..n][i] == ops[i];
        }
        ApplyComplete(Run(ops[..n]), ops[n]);
      }
    }
  }

  /** The index can find every live entry throughout a run exactly when no
      insertion of the run takes a guid which is already live. */
  lemma AlwaysCompleteExactly<M>(ops: seq<Op<M>>)
    ensures NeverDuplicates(ops) <==> forall i | 0 <= i <= |ops| :: Run(ops[..i]).IndexComplete()
  {
    if NeverDuplicates(ops) {
      forall i | 0 <= i <= |ops|
        ensures Run(ops[..i]).IndexComplete()
      {
        forall j | 0 <= j < i
          ensures !Duplicates(Run(ops[..i][..j]), ops[..i][j])
        {
          assert ops[..i][..j] == ops[..j] && ops[..i][j] == ops[j];
        }
        IndexInvariant(ops[..i]);
      }
    } else {
      var i :| 0 <= i < |ops| && Duplicates(Run(ops[..i]), ops[i]);
      assert ops[..i + 1][..i] == ops[..i];
      DuplicateBreaksIndex(Run(ops[..i]), ops[i]);
    }
  }

  lemma DuplicateBreaksIndex<M>(s: Store<M>, op: Op<M>)
    requires Duplicates(s, op)
    ensures !Apply(s, op).IndexComplete()
  {
    var t :| t in s.byTag && s.byTag[t].guid == op.entry.guid;
    var s' := Apply(s, op);
    assert t in s'.byTag && op.tag in s'.byTag && s'.byTag[t].guid == s'.byTag[op.tag].guid;
  }

  /** With a duplicate guid the index keeps the older entry, and loses it with the newer
      one. */
  lemma DuplicateGuidLosesEntry<M>(m: M)
    ensures Run([DoInsert(1, Entry(7, m, 0)), DoInsert(2, Entry(7, m, 0))]).byGuid == map[7 := 1]
    ensures var s := Run([DoInsert(1, Entry(7, m, 0)), DoInsert(2, Entry(7, m, 0)), DoRemove(2)]);
      1 in s.byTag && s.byTag[1].guid == 7 && 7 !in s.byGuid
  {
    var a, b, c: Op<M> := DoInsert(1, Entry(7, m, 0)), DoInsert(2, Entry(7, m, 0)), DoRemove(2);
    assert [a, b, c][..2] == [a, b] && [a, b][..1] == [a] && [a][..0] == [];
    assert Run([a]) == Apply(Run([]), a);
    assert Run([a, b]) == Apply(Run([a]), b);
    assert Run([a, b, c]) == Apply(Run([a, b]), c);
  }
}
