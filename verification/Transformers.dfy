/**
 Message transformations: the producer applies a list of transformers in order
 and marks each one it applied in the headers; the consumer undoes the marked ones
 in reverse order.
 */
module Transformers {
  import opened Wrappers

  type Headers = map<string, string>

  datatype Packet = Packet(data: seq<bv8>, headers: Headers)

  datatype Outcome = Failed | Declined(packet: Packet) | Applied(packet: Packet)

  datatype Transformer = Transformer(
    name: string,
    transform: Packet -> Outcome,
    inverse: Packet -> Option<Packet>)

  const MARK_PREFIX := "sdk.transform."

  function Mark(name: string): string {
    MARK_PREFIX + name
  }

  predicate IsMark(key: string) {
    MARK_PREFIX <= key
  }

  function Put(p: Packet, key: string, value: string): Packet {
    p.(headers := p.headers[key := value])
  }

  function Erase(p: Packet, key: string): Packet {
    p.(headers := p.headers - {key})
  }

  // ---- The two directions ----

  function Pack(ts: seq<Transformer>, p: Packet): Option<Packet> {
    if ts == [] then Some(p)
    else match ts[0].transform(p)
      case Failed => None
      case Declined(q) => Pack(ts[1..], q)
      case Applied(q) =>
        if Mark(ts[0].name) in q.headers then None else Pack(ts[1..], Put(q, Mark(ts[0].name), "ok"))
  }

  function UndoOne(t: Transformer, p: Packet): Option<Packet> {
    if Mark(t.name) !in p.headers then Some(p)
    else match t.inverse(p)
      case None => None
      case Some(q) => Some(Erase(q, Mark(t.name)))
  }

  function Unpack(ts: seq<Transformer>, p: Packet): Option<Packet> {
    if ts == [] then Some(p)
    else match UndoOne(ts[|ts| - 1], p)
      case None => None
      case Some(q) => Unpack(ts[..|ts| - 1], q)
  }

  datatype Message = Message(data: seq<bv8>, headers: Option<Headers>)

  /** Absent headers become an empty table before transforming. */
  function Table(m: Message): Packet {
    Packet(m.data, if m.headers.Some? then m.headers.value else map[])
  }

  function AsMessage(p: Packet): Message {
    Message(p.data, Some(p.headers))
  }

  method ApplyTransformations(ts: seq<Transformer>, src: Message) returns (dst: Option<Message>)
    ensures dst == match Pack(ts, Table(src)) case None => None case Some(p) => Some(AsMessage(p))
  {
    var p := Table(src);
    var i := 0;
    while i < |ts|
      invariant 0 <= i <= |ts|
      invariant Pack(ts[i..], p) == Pack(ts, Table(src))
    {
      assert ts[i..][0] == ts[i] && ts[i..][1..] == ts[i + 1..];
      match ts[i].transform(p) {
        case Failed =>
          return None;
        case Applied(q) =>
          if Mark(ts[i].name) in q.headers {
            return None;
          }
          p := Put(q, Mark(ts[i].name), "ok");
        case Declined(q) =>
          p := q;
      }
      i := i + 1;
    }
    return Some(AsMessage(p));
  }

  method UnpackTransformations(ts: seq<Transformer>, src: Message) returns (dst: Option<Message>)
    ensures src.headers.None? ==> dst == Some(src)
    ensures src.headers.Some? ==>
      dst == match Unpack(ts, Table(src)) case None => None case Some(p) => Some(AsMessage(p))
  {
    if src.headers.None? {
      return Some(src);
    }
    var p := Table(src);
    var i := |ts|;
    assert ts[..i] == ts;
    while i > 0
      invariant 0 <= i <= |ts|
      invariant Unpack(ts[..i], p) == Unpack(ts, Table(src))
    {
      i := i - 1;
      assert ts[..i + 1][i] == ts[i] && ts[..i + 1][..i] == ts[..i];
      var mark := Mark(ts[i].name);
      if mark in p.headers {
        var r := ts[i].inverse(p);
        if r.None? {
          return None;
        }
        p := Erase(r.value, mark);
      }
    }
    return Some(AsMessage(p));
  }

  // ---- Transformer by transformer ----

  /** What one transformer makes of a packet: it leaves it as it declined it, or applies
      and sets its own mark, which must be free. */
  predicate Does(t: Transformer, p: Packet, q: Packet) {
    match t.transform(p)
    case Failed => false
    case Declined(r) => q == r
    case Applied(r) =>
      && "sdk.transform." + t.name !in r.headers
      && q == Packet(r.data, r.headers["sdk.transform." + t.name := "ok"])
  }

  /** What undoing one transformer makes of a packet: it takes away its mark, and without
      the mark leaves it alone. */
  predicate Undoes(t: Transformer, p: Packet, q: Packet) {
    if "sdk.transform." + t.name !in p.headers then q == p
    else
      && t.inverse(p).Some?
      && q == Packet(t.inverse(p).value.data, t.inverse(p).value.headers - {"sdk.transform." + t.name})
  }

  /** The packets before, between and after the transformers, taken in order. */
  ghost predicate Passes(ts: seq<Transformer>, ps: seq<Packet>) {
    |ps| == |ts| + 1 && forall i | 0 <= i < |ts| :: Does(ts[i], ps[i], ps[i + 1])
  }

  /** The same for undoing them, taken in reverse. */
  ghost predicate Returns(ts: seq<Transformer>, ps: seq<Packet>) {
    |ps| == |ts| + 1 && forall i | 0 <= i < |ts| :: Undoes(ts[i], ps[i + 1], ps[i])
  }

  lemma {:induction false} PackPasses(ts: seq<Transformer>, p: Packet) returns (ps: seq<Packet>)
    requires Pack(ts, p).Some?
    ensures Passes(ts, ps) && ps[0] == p && ps[|ts|] == Pack(ts, p).value
    decreases |ts|
  {
    if ts == [] {
      ps := [p];
    } else {
      var later := PackPasses(ts[1..], AfterFirst(ts[0], p));
      ps := [p] + later;
      forall i | 0 <= i < |ts| ensures Does(ts[i], ps[i], ps[i + 1]) {
        if i > 0 {
          assert Does(ts[1..][i - 1], later[i - 1], later[i]);
        }
      }
    }
  }

  lemma {:induction false} PassesPack(ts: seq<Transformer>, ps: seq<Packet>)
    requires Passes(ts, ps)
    ensures Pack(ts, ps[0]) == Some(ps[|ts|])
    decreases |ts|
  {
    if ts != [] {
      assert Does(ts[0], ps[0], ps[1]);
      forall i | 0 <= i < |ts| - 1 ensures Does(ts[1..][i], ps[1..][i], ps[1..][i + 1]) {
        assert Does(ts[i + 1], ps[i + 1], ps[i + 2]);
      }
      PassesPack(ts[1..], ps[1..]);
    }
  }

  /** The producer gets q from p if and only if q is what the transformers make of p, one
      after the other, each applied one marking itself. */
  lemma PackExactly(ts: seq<Transformer>, p: Packet, q: Packet)
    ensures Pack(ts, p) == Some(q) <==> exists ps :: Passes(ts, ps) && ps[0] == p && ps[|ts|] == q
  {
    if Pack(ts, p) == Some(q) {
      var ps := PackPasses(ts, p);
    }
    forall ps | Passes(ts, ps) && ps[0] == p && ps[|ts|] == q ensures Pack(ts, p) == Some(q) {
      PassesPack(ts, ps);
    }
  }

  lemma {:induction false} UnpackReturns(ts: seq<Transformer>, p: Packet) returns (ps: seq<Packet>)
    requires Unpack(ts, p).Some?
    ensures Returns(ts, ps) && ps[|ts|] == p && ps[0] == Unpack(ts, p).value
    decreases |ts|
  {
    if ts == [] {
      ps := [p];
    } else {
      var n := |ts| - 1;
      var earlier := UnpackReturns(ts[..n], UndoOne(ts[n], p).value);
      ps := earlier + [p];
      forall i | 0 <= i < |ts| ensures Undoes(ts[i], ps[i + 1], ps[i]) {
        if i < n {
          assert Undoes(ts[..n][i], earlier[i + 1], earlier[i]);
        }
      }
    }
  }

  lemma {:induction false} ReturnsUnpack(ts: seq<Transformer>, ps: seq<Packet>)
    requires Returns(ts, ps)
    ensures Unpack(ts, ps[|ts|]) == Some(ps[0])
    decreases |ts|
  {
    if ts != [] {
      var n := |ts| - 1;
      assert Undoes(ts[n], ps[n + 1], ps[n]);
      forall i | 0 <= i < n ensures Undoes(ts[..n][i], ps[..n + 1][i + 1], ps[..n + 1][i]) {
        assert Undoes(ts[i], ps[i + 1], ps[i]);
      }
      ReturnsUnpack(ts[..n], ps[..n + 1]);
    }
  }

  /** The consumer gets q from p if and only if q is what undoing the marked ones, the
      last one first, makes of p. */
  lemma UnpackExactly(ts: seq<Transformer>, p: Packet, q: Packet)
    ensures Unpack(ts, p) == Some(q) <==> exists ps :: Returns(ts, ps) && ps[|ts|] == p && ps[0] == q
  {
    if Unpack(ts, p) == Some(q) {
      var ps := UnpackReturns(ts, p);
    }
    forall ps | Returns(ts, ps) && ps[|ts|] == p && ps[0] == q ensures Unpack(ts, p) == Some(q) {
      ReturnsUnpack(ts, ps);
    }
  }

  // ---- What is asked of a transformer ----

  ghost predicate SameMarks(p: Packet, q: Packet) {
    forall k | IsMark(k) ::
      (k in p.headers <==> k in q.headers) && (k in p.headers ==> p.headers[k] == q.headers[k])
  }

  /** A transformer leaves the packet alone when it declines, keeps away from the
      marks, and its inverse undoes it whatever marks are present. */
  ghost predicate WellBehaved(t: Transformer) {
    && (forall p :: t.transform(p).Declined? ==> t.transform(p).packet == p)
    && (forall p :: t.transform(p).Applied? ==> SameMarks(p, t.transform(p).packet))
    && (forall p :: t.transform(p).Applied? ==> t.inverse(t.transform(p).packet) == Some(p))
    && (forall q :: t.inverse(q).Some? ==> SameMarks(q, t.inverse(q).value))
    && (forall q, k, v :: IsMark(k) && t.inverse(q).Some? ==>
          t.inverse(Put(q, k, v)) == Some(Put(t.inverse(q).value, k, v)))
  }

  ghost predicate AllWellBehaved(ts: seq<Transformer>) {
    forall i | 0 <= i < |ts| :: WellBehaved(ts[i])
  }

  predicate DistinctNames(ts: seq<Transformer>) {
    forall i, j | 0 <= i < j < |ts| :: ts[i].name != ts[j].name
  }

  /** The message carries no mark of any of the transformers. */
  predicate Unmarked(ts: seq<Transformer>, p: Packet) {
    forall i | 0 <= i < |ts| :: Mark(ts[i].name) !in p.headers
  }

  lemma MarksDiffer(a: string, b: string)
    ensures IsMark(Mark(a))
    ensures Mark(a) == Mark(b) ==> a == b
  {
    assert Mark(a)[|MARK_PREFIX|..] == a;
    assert Mark(b)[|MARK_PREFIX|..] == b;
  }

  lemma {:induction false} UnpackSplit(a: seq<Transformer>, b: seq<Transformer>, p: Packet)
    ensures Unpack(a + b, p) == match Unpack(b, p) case None => None case Some(q) => Unpack(a, q)
    decreases |b|
  {
    if b == [] {
      assert a + b == a;
    } else {
      var n := |b| - 1;
      assert (a + b)[|a + b| - 1] == b[n] && (a + b)[..|a + b| - 1] == a + b[..n];
      match UndoOne(b[n], p) {
        case None =>
        case Some(q) => UnpackSplit(a, b[..n], q);
      }
    }
  }

  /** One transformer, applied or declined, is undone. */
  lemma UndoFirst(t: Transformer, p: Packet)
    requires WellBehaved(t) && Mark(t.name) !in p.headers
    requires t.transform(p).Applied?
    ensures var q := t.transform(p).packet;
      Mark(t.name) !in q.headers && UndoOne(t, Put(q, Mark(t.name), "ok")) == Some(p)
  {
    var q, k := t.transform(p).packet, Mark(t.name);
    MarksDiffer(t.name, t.name);
    assert SameMarks(p, q);
    assert t.inverse(Put(q, k, "ok")) == Some(Put(p, k, "ok"));
    assert Erase(Put(p, k, "ok"), k) == p;
  }

  /** The packet the other transformers see. */
  function AfterFirst(t: Transformer, p: Packet): Packet {
    match t.transform(p) case Applied(q) => Put(q, Mark(t.name), "ok") case Declined(q) => q case Failed => p
  }

  lemma RestUnmarked(ts: seq<Transformer>, p: Packet)
    requires AllWellBehaved(ts) && DistinctNames(ts) && Unmarked(ts, p) && ts != []
    ensures AllWellBehaved(ts[1..]) && DistinctNames(ts[1..]) && Unmarked(ts[1..], AfterFirst(ts[0], p))
  {
    var t, rest := ts[0], ts[1..];
    assert WellBehaved(t);
    forall i | 0 <= i < |rest|
      ensures Mark(rest[i].name) !in AfterFirst(t, p).headers && WellBehaved(rest[i])
    {
      assert rest[i] == ts[i + 1];
      MarksDiffer(t.name, rest[i].name);
      MarksDiffer(rest[i].name, t.name);
    }
  }

  lemma {:induction false} UnmarkedRestored(ts: seq<Transformer>, p: Packet)
    requires AllWellBehaved(ts) && DistinctNames(ts) && Unmarked(ts, p)
    requires Pack(ts, p).Some?
    ensures Unpack(ts, Pack(ts, p).value) == Some(p)
    decreases |ts|
  {
    if ts != [] {
      var t, rest := ts[0], ts[1..];
      var p1 := AfterFirst(t, p);
      RestUnmarked(ts, p);
      UnmarkedRestored(rest, p1);
      assert ts == [t] + rest;
      UnpackSplit([t], rest, Pack(ts, p).value);
      assert [t][..0] == [];
      if t.transform(p).Applied? {
        UndoFirst(t, p);
        assert Unpack([t], p1) == Unpack([], p);
      }
    }
  }

  /** Whatever the consumer restores carries no mark of its transformers. */
  lemma {:induction false} UnpackErasesMarks(ts: seq<Transformer>, p: Packet)
    requires AllWellBehaved(ts) && Unpack(ts, p).Some?
    ensures forall k | IsMark(k) && k !in p.headers :: k !in Unpack(ts, p).value.headers
    ensures Unmarked(ts, Unpack(ts, p).value)
  {
    if ts != [] {
      var n := |ts| - 1;
      var q := UndoOne(ts[n], p).value;
      assert WellBehaved(ts[n]);
      MarksDiffer(ts[n].name, ts[n].name);
      assert AllWellBehaved(ts[..n]);
      UnpackErasesMarks(ts[..n], q);
      assert Mark(ts[n].name) !in q.headers;
      forall i | 0 <= i < |ts| ensures Mark(ts[i].name) !in Unpack(ts, p).value.headers {
        if i < n {
          assert ts[..n][i] == ts[i];
        }
      }
    }
  }

  /** For well-behaved transformers with distinct names, the consumer gives back
      what the producer started from exactly when the message did not already carry
      one of their marks. */
  lemma TransformRoundTrip(ts: seq<Transformer>, p: Packet)
    requires AllWellBehaved(ts) && DistinctNames(ts)
    requires Pack(ts, p).Some?
    ensures Unpack(ts, Pack(ts, p).value) == Some(p) <==> Unmarked(ts, p)
  {
    if Unmarked(ts, p) {
      UnmarkedRestored(ts, p);
    } else if Unpack(ts, Pack(ts, p).value) == Some(p) {
      UnpackErasesMarks(ts, Pack(ts, p).value);
    }
  }
}
