/** The wrapper objects of middleware.go and prometheus/writer.go, updated in place. A Go
    interface value is a reference tagged with its dynamic type; every method is proved
    against ResponseWriters.Apply on the stack of values it stands for. */
module WriterObjects {
  import opened Basics
  import opened ResponseWriters

  datatype Ref =
    | BaseRef(base: BaseWriter)
    | TrackingRef(tracking: PanicTrackingWriter)
    | MeteringRef(metering: ResponseWriter)

  ghost function Footprint(r: Ref): set<object> {
    match r
    case BaseRef(b) => {b}
    case TrackingRef(t) => t.Repr
    case MeteringRef(m) => m.Repr
  }

  /** The wrapped writer never changes, so neither does the shape of a stack. */
  ghost predicate Valid(r: Ref)
    decreases Footprint(r)
  {
    match r
    case BaseRef(_) => true
    case TrackingRef(t) =>
      t.Repr == Footprint(t.inner) + {t} && t !in Footprint(t.inner) && Valid(t.inner)
    case MeteringRef(m) =>
      m.Repr == Footprint(m.inner) + {m} && m !in Footprint(m.inner) && Valid(m.inner)
  }

  ghost function View(r: Ref): Writer
    requires Valid(r)
    reads Footprint(r)
    decreases Footprint(r)
  {
    match r
    case BaseRef(b) => Base(b.flusher, b.hijacker, b.replies, b.calls)
    case TrackingRef(t) => Tracking(t.written, View(t.inner))
    case MeteringRef(m) => Metering(m.status, m.hijacked, View(m.inner))
  }

  /** The type assertion w.(http.Flusher). */
  predicate AssertsFlusher(r: Ref)
    requires Valid(r)
    reads Footprint(r)
    ensures AssertsFlusher(r) == IsFlusher(View(r))
  {
    r.BaseRef? ==> r.base.flusher
  }

  /** The type assertion w.(http.Hijacker). */
  predicate AssertsHijacker(r: Ref)
    requires Valid(r)
    reads Footprint(r)
    ensures AssertsHijacker(r) == IsHijacker(View(r))
  {
    r.MeteringRef? || (r.BaseRef? && r.base.hijacker)
  }

  // ----- dynamic dispatch -----

  method CallWriteHeader(r: Ref, code: Code)
    requires Valid(r)
    modifies Footprint(r)
    ensures View(r) == Apply(old(View(r)), Call.WriteHeader(code))
    decreases Footprint(r), 1
  {
    match r {
      case BaseRef(b) => b.Record(Call.WriteHeader(code));
      case TrackingRef(t) => t.WriteHeader(code);
      case MeteringRef(m) => m.WriteHeader(code);
    }
  }

  method CallWrite(r: Ref)
    requires Valid(r)
    modifies Footprint(r)
    ensures View(r) == Apply(old(View(r)), Call.Write)
    decreases Footprint(r), 1
  {
    match r {
      case BaseRef(b) => b.Record(Call.Write);
      case TrackingRef(t) => t.Write();
      case MeteringRef(m) => m.Write();
    }
  }

  method CallFlush(r: Ref)
    requires Valid(r) && AssertsFlusher(r)
    modifies Footprint(r)
    ensures View(r) == Apply(old(View(r)), Call.Flush)
    decreases Footprint(r), 1
  {
    match r {
      case BaseRef(b) => b.Record(Call.Flush);
      case TrackingRef(t) => t.Flush();
      case MeteringRef(m) => m.Flush();
    }
  }

  method CallHijack(r: Ref) returns (ok: bool)
    requires Valid(r) && AssertsHijacker(r)
    modifies Footprint(r)
    ensures View(r) == Apply(old(View(r)), Call.Hijack)
    ensures ok == old(Grants(View(r)))
    decreases Footprint(r), 1
  {
    match r {
      case BaseRef(b) => ok := b.Hijack();
      case MeteringRef(m) => ok := m.Hijack();
    }
  }

  // ----- the three dynamic types -----

  /** The server's own writer: it records what reaches it, and answers Hijack from a script. */
  class BaseWriter {
    const flusher: bool
    const hijacker: bool
    var replies: seq<bool>
    var calls: seq<Call>

    constructor (flusher: bool, hijacker: bool, replies: seq<bool>)
      ensures View(BaseRef(this)) == Base(flusher, hijacker, replies, [])
    {
      this.flusher, this.hijacker, this.replies, calls := flusher, hijacker, replies, [];
    }

    method Record(c: Call)
      requires !c.Hijack? && (c.Flush? ==> flusher)
      modifies this
      ensures View(BaseRef(this)) == Apply(old(View(BaseRef(this))), c)
    {
      calls := calls + [c];
    }

    method Hijack() returns (ok: bool)
      requires hijacker
      modifies this
      ensures View(BaseRef(this)) == Apply(old(View(BaseRef(this))), Call.Hijack)
      ensures ok == old(Grants(View(BaseRef(this))))
    {
      calls := calls + [Call.Hijack];
      ok := false;
      if replies != [] {
        ok := replies[0];
        replies := replies[1..];
      }
    }
  }

  class PanicTrackingWriter {
    const inner: Ref
    var written: bool
    ghost const Repr: set<object>

    constructor (inner: Ref)
      requires Valid(inner)
      ensures Valid(TrackingRef(this)) && this.inner == inner && fresh(Repr - Footprint(inner))
      ensures View(TrackingRef(this)) == Tracking(false, old(View(inner)))
    {
      this.inner := inner;
      written := false;
      Repr := Footprint(inner) + {this};
    }

    method WriteHeader(code: Code)
      requires Valid(TrackingRef(this))
      modifies Repr
      ensures View(TrackingRef(this)) == Apply(old(View(TrackingRef(this))), Call.WriteHeader(code))
      decreases Repr, 0
    {
      written := true;
      CallWriteHeader(inner, code);
    }

    method Write()
      requires Valid(TrackingRef(this))
      modifies Repr
      ensures View(TrackingRef(this)) == Apply(old(View(TrackingRef(this))), Call.Write)
      decreases Repr, 0
    {
      written := true;
      CallWrite(inner);
    }

    method Flush()
      requires Valid(TrackingRef(this))
      modifies Repr
      ensures View(TrackingRef(this)) == Apply(old(View(TrackingRef(this))), Call.Flush)
      decreases Repr, 0
    {
      if AssertsFlusher(inner) {
        CallFlush(inner);
      }
    }
  }

  class ResponseWriter {
    const inner: Ref
    var status: int
    var hijacked: bool
    ghost const Repr: set<object>

    constructor (inner: Ref)
      requires Valid(inner)
      ensures Valid(MeteringRef(this)) && this.inner == inner && fresh(Repr - Footprint(inner))
      ensures View(MeteringRef(this)) == Metering(0, false, old(View(inner)))
    {
      this.inner := inner;
      status, hijacked := 0, false;
      Repr := Footprint(inner) + {this};
    }

    method WriteHeader(code: Code)
      requires Valid(MeteringRef(this))
      modifies Repr
      ensures View(MeteringRef(this)) == Apply(old(View(MeteringRef(this))), Call.WriteHeader(code))
      decreases Repr, 0
    {
      if hijacked {
        return;
      }
      status := code;
      CallWriteHeader(inner, code);
    }

    method Write()
      requires Valid(MeteringRef(this))
      modifies Repr
      ensures View(MeteringRef(this)) == Apply(old(View(MeteringRef(this))), Call.Write)
      decreases Repr, 0
    {
      if hijacked {
        CallWrite(inner);
        return;
      }
      if status == 0 {
        status := 200;
      }
      CallWrite(inner);
    }

    method Flush()
      requires Valid(MeteringRef(this))
      modifies Repr
      ensures View(MeteringRef(this)) == Apply(old(View(MeteringRef(this))), Call.Flush)
      decreases Repr, 0
    {
      if AssertsFlusher(inner) {
        CallFlush(inner);
      }
    }

    /** Returns whether the connection was handed over. */
    method Hijack() returns (ok: bool)
      requires Valid(MeteringRef(this))
      modifies Repr
      ensures View(MeteringRef(this)) == Apply(old(View(MeteringRef(this))), Call.Hijack)
      ensures ok == old(Grants(View(MeteringRef(this))))
      decreases Repr, 0
    {
      if !AssertsHijacker(inner) {
        return false;
      }
      ok := CallHijack(inner);
      if ok {
        hijacked := true;
        if status == 0 {
          status := 101;
        }
      }
    }
  }
}
