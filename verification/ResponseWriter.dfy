/** The http.ResponseWriter wrappers as values: panicTrackingWriter (middleware.go) and the
    metrics responseWriter (prometheus/writer.go), stacked in any order over a base writer.
    Module WriterObjects holds the objects that are updated in place; it is proved against
    the functions here. */
module ResponseWriters {
  import opened Basics

  /** The status codes net/http accepts. */
  type Code = c: int | 100 <= c <= 999 witness 200

  datatype Call = WriteHeader(code: Code) | Write | Flush | Hijack

  datatype Writer =
    | Base(flusher: bool, hijacker: bool, replies: seq<bool>, calls: seq<Call>)
    | Tracking(written: bool, inner: Writer)
    | Metering(status: int, hijacked: bool, inner: Writer)

  /** Whether the dynamic type of w implements http.Flusher. Both wrappers always do. */
  predicate IsFlusher(w: Writer) {
    w.Base? ==> w.flusher
  }

  /** Whether Hijack on w returns a nil error. A tracking writer is no http.Hijacker; the
      base answers from a script of replies. */
  predicate Grants(w: Writer): (g: bool)
    ensures g ==> IsHijacker(w)
  {
    match w
    case Base(_, hijacker, replies, _) => hijacker && replies != [] && replies[0]
    case Tracking(_, _) => false
    case Metering(_, _, inner) => Grants(inner)
  }

  /** Whether a caller can reach a Hijack method through the type assertion on w. */
  predicate IsHijacker(w: Writer) {
    match w
    case Base(_, hijacker, _, _) => hijacker
    case Tracking(_, _) => false
    case Metering(_, _, _) => true
  }

  function Apply(w: Writer, c: Call): Writer {
    match w
    case Base(flusher, hijacker, replies, calls) =>
      if (c.Flush? && !flusher) || (c.Hijack? && !hijacker) then w
      else w.(calls := calls + [c], replies := if c.Hijack? && replies != [] then replies[1..] else replies)
    case Tracking(written, inner) =>
      if c.Hijack? then w
      else if c.Flush? then if IsFlusher(inner) then Tracking(written, Apply(inner, c)) else w
      else Tracking(true, Apply(inner, c))
    case Metering(status, hijacked, inner) =>
      match c
      case WriteHeader(code) =>
        if hijacked then w else Metering(code, false, Apply(inner, c))
      case Write =>
        Metering(if !hijacked && status == 0 then 200 else status, hijacked, Apply(inner, c))
      case Flush =>
        if IsFlusher(inner) then Metering(status, hijacked, Apply(inner, c)) else w
      case Hijack =>
        if !IsHijacker(inner) then w
        else if Grants(inner) then Metering(if status == 0 then 101 else status, true, Apply(inner, c))
        else Metering(status, hijacked, Apply(inner, c))
  }

  function ApplyAll(w: Writer, calls: seq<Call>): Writer
    decreases |calls|
  {
    if calls == [] then w else ApplyAll(Apply(w, calls[0]), calls[1..])
  }

  lemma {:induction false} ApplyAllConcat(w: Writer, a: seq<Call>, b: seq<Call>)
    ensures ApplyAll(w, a + b) == ApplyAll(ApplyAll(w, a), b)
    decreases |a|
  {
    if a == [] {
      assert a + b == b;
    } else {
      ApplyAllConcat(Apply(w, a[0]), a[1..], b);
      assert (a + b)[0] == a[0] && (a + b)[1..] == a[1..] + b;
    }
  }

  /** The calls a wrapper in state w makes on the writer below when it receives c. */
  function Forwarded(w: Writer, c: Call): seq<Call>
    requires !w.Base?
  {
    match c
    case WriteHeader(_) => if w.Metering? && w.hijacked then [] else [c]
    case Write => [c]
    case Flush => if IsFlusher(w.inner) then [c] else []
    case Hijack => if w.Metering? && IsHijacker(w.inner) then [c] else []
  }

  function ForwardedAll(w: Writer, calls: seq<Call>): seq<Call>
    requires !w.Base?
    decreases |calls|
  {
    if calls == [] then []
    else Forwarded(w, calls[0]) + ForwardedAll(Apply(w, calls[0]), calls[1..])
  }

  /** A wrapper keeps its type, and what it did to the writer below is what it forwarded. */
  lemma {:induction false} ForwardedIsFaithful(w: Writer, calls: seq<Call>)
    requires !w.Base?
    ensures var w' := ApplyAll(w, calls);
            && (w'.Tracking? <==> w.Tracking?) && (w'.Metering? <==> w.Metering?)
            && w'.inner == ApplyAll(w.inner, ForwardedAll(w, calls))
    decreases |calls|
  {
    if calls != [] {
      var next := Apply(w, calls[0]);
      ForwardedIsFaithful(next, calls[1..]);
      ApplyAllConcat(w.inner, Forwarded(w, calls[0]), ForwardedAll(next, calls[1..]));
      assert next.inner == ApplyAll(w.inner, Forwarded(w, calls[0]));
    }
  }

  /** Whether the calls commit the response in the eyes of panicTrackingWriter. */
  predicate Commits(calls: seq<Call>) {
    exists c :: c in calls && (c.WriteHeader? || c.Write?)
  }

  lemma {:induction false} WrittenIffCommits(w: Writer, calls: seq<Call>)
    requires w.Tracking?
    ensures var w' := ApplyAll(w, calls); w'.Tracking? && (w'.written <==> w.written || Commits(calls))
    decreases |calls|
  {
    if calls != [] {
      WrittenIffCommits(Apply(w, calls[0]), calls[1..]);
      assert calls == [calls[0]] + calls[1..];
      assert forall c :: c in calls <==> c == calls[0] || c in calls[1..];
    }
  }

  /** With no Flush and no Hijack, a tracking writer forwards every call. */
  lemma {:induction false} TrackingForwardsWrites(w: Writer, calls: seq<Call>)
    requires w.Tracking? && Flush !in calls && Hijack !in calls
    ensures ForwardedAll(w, calls) == calls
    decreases |calls|
  {
    if calls != [] {
      assert calls == [calls[0]] + calls[1..];
      TrackingForwardsWrites(Apply(w, calls[0]), calls[1..]);
    }
  }

  /** The status label HTTPMetrics reports (prometheus/metrics.go:64-68). */
  function Label(w: Writer): int
    requires w.Metering?
  {
    if w.status == 0 then 200 else w.status
  }

  // ----- the status label as a closed form -----

  function LastHeader(calls: seq<Call>): Option<Code> {
    if calls == [] then None
    else if calls[|calls| - 1].WriteHeader? then Some(calls[|calls| - 1].code)
    else LastHeader(calls[..|calls| - 1])
  }

  /** How many of the calls come up to and including the first granted Hijack. */
  function UntilHijack(w: Writer, calls: seq<Call>): (n: nat)
    ensures n <= |calls|
    decreases |calls|
  {
    if calls == [] then 0
    else if calls[0].Hijack? && Grants(w) then 1
    else 1 + UntilHijack(Apply(w, calls[0]), calls[1..])
  }

  /** Whether some Hijack among the calls is granted. */
  predicate HijackGranted(w: Writer, calls: seq<Call>)
    decreases |calls|
  {
    calls != [] && ((calls[0].Hijack? && Grants(w)) || HijackGranted(Apply(w, calls[0]), calls[1..]))
  }

  /** The status of a metering writer that has seen exactly `calls`, none of them after a
      granted Hijack: the last WriteHeader wins, and a Write or the granted Hijack only
      fills in a status that is still unset. */
  function StatusOf(start: int, calls: seq<Call>, granted: bool): int {
    if LastHeader(calls).Some? then LastHeader(calls).value
    else if start != 0 then start
    else if Write in calls then 200
    else if granted then 101
    else 0
  }

  lemma LastHeaderCons(c: Call, rest: seq<Call>)
    ensures LastHeader([c] + rest) ==
            if LastHeader(rest).Some? then LastHeader(rest) else if c.WriteHeader? then Some(c.code) else None
  {
    var l := [c] + rest;
    if rest != [] {
      assert l[..|l| - 1] == [c] + rest[..|rest| - 1];
      LastHeaderCons(c, rest[..|rest| - 1]);
    } else {
      assert l[..0] == [];
    }
  }

  lemma {:induction false} HijackedFreezes(w: Writer, calls: seq<Call>)
    requires w.Metering? && w.hijacked
    ensures var w' := ApplyAll(w, calls); w'.Metering? && w'.hijacked
    ensures w.status != 0 ==> ApplyAll(w, calls).status == w.status
    decreases |calls|
  {
    if calls != [] {
      HijackedFreezes(Apply(w, calls[0]), calls[1..]);
    }
  }

  /** The status after any sequence of calls on any stack below, in closed form. */
  lemma {:induction false} StatusClosedForm(w: Writer, calls: seq<Call>)
    requires w.Metering? && !w.hijacked
    ensures var w' := ApplyAll(w, calls);
            && w'.Metering?
            && w'.status == StatusOf(w.status, calls[..UntilHijack(w, calls)], HijackGranted(w, calls))
            && (w'.hijacked <==> HijackGranted(w, calls))
    decreases |calls|
  {
    if calls != [] {
      var c, next := calls[0], Apply(w, calls[0]);
      var n := UntilHijack(w, calls);
      if c.Hijack? && Grants(w) {
        assert calls[..1] == [c];
        LastHeaderCons(c, []);
        HijackedFreezes(next, calls[1..]);
      } else {
        StatusClosedForm(next, calls[1..]);
        var rest := calls[1..][..n - 1];
        assert calls[..n] == [c] + rest;
        LastHeaderCons(c, rest);
        assert Write in calls[..n] <==> c == Write || Write in rest;
      }
    }
  }

  // ----- agreement with the wire -----

  /** The status the client sees: net/http commits at the first final WriteHeader, Write or
      Flush, and answers 200 when the handler commits nothing. 1xx headers are interim. */
  function WireStatus(calls: seq<Call>): int {
    if calls == [] then 200
    else
      match calls[0]
      case WriteHeader(code) => if 200 <= code || code == 101 then code else WireStatus(calls[1..])
      case Write => 200
      case Flush => 200
      case Hijack => WireStatus(calls[1..])
  }

  function Bottom(w: Writer): (b: Writer)
    ensures b.Base?
  {
    if w.Base? then w else Bottom(w.inner)
  }

  /** No layer has been hijacked. */
  predicate Quiet(w: Writer) {
    match w
    case Base(_, _, _, _) => true
    case Tracking(_, inner) => Quiet(inner)
    case Metering(_, hijacked, inner) => !hijacked && Quiet(inner)
  }

  /** At most one WriteHeader, final, before any Write or Flush; no Hijack. */
  predicate WellFormed(calls: seq<Call>) {
    && (forall i :: 0 <= i < |calls| ==> !calls[i].Hijack?)
    && (forall i :: 0 <= i < |calls| && calls[i].WriteHeader? ==>
          i == 0 && (200 <= calls[i].code || calls[i].code == 101))
  }

  function WithoutFlush(calls: seq<Call>): seq<Call> {
    if calls == [] then []
    else if calls[0].Flush? then WithoutFlush(calls[1..])
    else [calls[0]] + WithoutFlush(calls[1..])
  }

  lemma {:induction false} OneCallReachesBase(w: Writer, c: Call)
    requires Quiet(w) && !c.Hijack?
    ensures var w' := Apply(w, c);
            && Quiet(w')
            && Bottom(w') == Apply(Bottom(w), c)
  {
    if !w.Base? {
      if c.Flush? && !IsFlusher(w.inner) {
        assert w.inner.Base?;
      } else {
        OneCallReachesBase(w.inner, c);
      }
    }
  }

  /** Every WriteHeader, Write and Flush made on a stack that has not been hijacked reaches
      the base, in order; a Flush does exactly when the base is a Flusher. */
  lemma {:induction false} CallsReachBase(w: Writer, calls: seq<Call>)
    requires Quiet(w) && Hijack !in calls
    ensures var w' := ApplyAll(w, calls);
            && Quiet(w')
            && Bottom(w').calls == Bottom(w).calls + if Bottom(w).flusher then calls else WithoutFlush(calls)
    decreases |calls|
  {
    if calls != [] {
      var c, rest := calls[0], calls[1..];
      OneCallReachesBase(w, c);
      CallsReachBase(Apply(w, c), rest);
      assert calls == [c] + rest;
    }
  }

  lemma {:induction false} NoHeaderWire(calls: seq<Call>)
    requires forall i :: 0 <= i < |calls| ==> !calls[i].WriteHeader?
    ensures WireStatus(calls) == 200 && LastHeader(calls) == None
  {
    if calls != [] {
      NoHeaderWire(calls[1..]);
      assert calls == [calls[0]] + calls[1..];
      LastHeaderCons(calls[0], calls[1..]);
    }
  }

  lemma {:induction false} NoHijackGrant(w: Writer, calls: seq<Call>)
    requires Hijack !in calls
    ensures !HijackGranted(w, calls) && UntilHijack(w, calls) == |calls|
    decreases |calls|
  {
    if calls != [] {
      NoHijackGrant(Apply(w, calls[0]), calls[1..]);
    }
  }

  /** The calls that can reach the server's own writer: no Hijack, and Flush if it can flush. */
  function Reaching(flusher: bool, calls: seq<Call>): seq<Call> {
    if calls == [] then []
    else if calls[0].Hijack? || (calls[0].Flush? && !flusher) then Reaching(flusher, calls[1..])
    else [calls[0]] + Reaching(flusher, calls[1..])
  }

  lemma {:induction false} ReachingConcat(flusher: bool, a: seq<Call>, b: seq<Call>)
    ensures Reaching(flusher, a + b) == Reaching(flusher, a) + Reaching(flusher, b)
  {
    if a == [] {
      assert a + b == b;
    } else {
      assert (a + b)[0] == a[0] && (a + b)[1..] == a[1..] + b;
      ReachingConcat(flusher, a[1..], b);
    }
  }

  lemma {:induction false} ReachingKeepsHeaders(flusher: bool, calls: seq<Call>)
    ensures forall c :: c in Reaching(flusher, calls) ==> c in calls
  {
    if calls != [] {
      ReachingKeepsHeaders(flusher, calls[1..]);
    }
  }

  /** A refused Hijack does not change what the server sends. */
  lemma {:induction false} RefusedHijackIsSilent(calls: seq<Call>)
    ensures WireStatus(calls) == WireStatus(Reaching(true, calls))
  {
    if calls != [] {
      RefusedHijackIsSilent(calls[1..]);
      assert calls[0].Hijack? || Reaching(true, calls)[1..] == Reaching(true, calls[1..]);
    }
  }

  lemma {:induction false} OneCallReaches(w: Writer, c: Call)
    requires Quiet(w) && !(c.Hijack? && Grants(w))
    ensures var b, b' := Bottom(w), Bottom(Apply(w, c));
            && Quiet(Apply(w, c)) && b'.flusher == b.flusher
            && Reaching(true, b'.calls) == Reaching(true, b.calls) + Reaching(b.flusher, [c])
  {
    if !c.Hijack? {
      OneCallReachesBase(w, c);
      ReachingConcat(true, Bottom(w).calls, [c]);
      assert [c][1..] == [];
    } else if w.Base? {
      ReachingConcat(true, w.calls, [c]);
      assert [c][1..] == [];
    } else if w.Metering? && IsHijacker(w.inner) {
      OneCallReaches(w.inner, c);
    } else {
      assert [c][1..] == [];
    }
  }

  /** The same for calls that may include Hijack, as long as none is granted. */
  lemma {:induction false} CallsReach(w: Writer, calls: seq<Call>)
    requires Quiet(w) && !HijackGranted(w, calls)
    ensures var w' := ApplyAll(w, calls);
            Reaching(true, Bottom(w').calls) == Reaching(true, Bottom(w).calls) + Reaching(Bottom(w).flusher, calls)
    decreases |calls|
  {
    if calls != [] {
      var c, rest := calls[0], calls[1..];
      OneCallReaches(w, c);
      CallsReach(Apply(w, c), rest);
      assert calls == [c] + rest;
      ReachingConcat(Bottom(w).flusher, [c], rest);
    }
  }

  lemma {:induction false} NoGrantNoCut(w: Writer, calls: seq<Call>)
    requires !HijackGranted(w, calls)
    ensures UntilHijack(w, calls) == |calls|
    decreases |calls|
  {
    if calls != [] {
      NoGrantNoCut(Apply(w, calls[0]), calls[1..]);
    }
  }

  lemma {:induction false} NoLastHeader(calls: seq<Call>)
    ensures LastHeader(calls).None? <==> forall c :: c in calls ==> !c.WriteHeader?
  {
    if calls != [] {
      var init, c := calls[..|calls| - 1], calls[|calls| - 1];
      NoLastHeader(init);
      assert calls == init + [c];
    }
  }

  /** The last WriteHeader, if there is one, is for the status that the first call to commit
      the response has sent; a Write or Flush before any final WriteHeader sends 200, and so
      does the server if nothing commits. */
  predicate HeadersAgree(flusher: bool, calls: seq<Call>) {
    LastHeader(calls).None? || LastHeader(calls).value == WireStatus(Reaching(flusher, calls))
  }

  /** The label is the status the client saw exactly when the headers agree: for every
      sequence of calls, well-formed or not, in which no Hijack is granted, and whatever stack
      of wrappers lies between the metering writer and the base. */
  lemma LabelIsWireStatusIff(inner: Writer, calls: seq<Call>)
    requires Quiet(inner) && Bottom(inner).calls == []
    requires !HijackGranted(Metering(0, false, inner), calls)
    ensures var w := ApplyAll(Metering(0, false, inner), calls);
            && w.Metering?
            && (Label(w) == WireStatus(Bottom(w).calls) <==> HeadersAgree(Bottom(inner).flusher, calls))
  {
    var m, flusher := Metering(0, false, inner), Bottom(inner).flusher;
    var w := ApplyAll(m, calls);
    NoGrantNoCut(m, calls);
    assert calls[..|calls|] == calls;
    StatusClosedForm(m, calls);
    CallsReach(m, calls);
    RefusedHijackIsSilent(Bottom(w).calls);
    assert Reaching(true, Bottom(w).calls) == Reaching(flusher, calls);
    NoLastHeader(calls);
    if LastHeader(calls).None? {
      ReachingKeepsHeaders(flusher, calls);
      NoHeaderWire(Reaching(flusher, calls));
    }
  }

  /** In particular it is for a well-formed handler. */
  lemma LabelIsWireStatus(inner: Writer, calls: seq<Call>)
    requires Quiet(inner) && Bottom(inner).calls == []
    requires WellFormed(calls)
    ensures var w := ApplyAll(Metering(0, false, inner), calls);
            w.Metering? && Label(w) == WireStatus(Bottom(w).calls)
  {
    NoHijackGrant(Metering(0, false, inner), calls);
    LabelIsWireStatusIff(inner, calls);
    if calls != [] && calls[0].WriteHeader? {
      assert calls == [calls[0]] + calls[1..];
      LastHeaderCons(calls[0], calls[1..]);
      NoHeaderWire(calls[1..]);
    } else {
      NoLastHeader(calls);
    }
  }

  /** After a Write the client has a 200, but a late WriteHeader still moves the label. */
  lemma LateHeaderMislabels(inner: Writer, code: Code)
    requires Quiet(inner) && Bottom(inner).calls == [] && code != 200
    ensures var w := ApplyAll(Metering(0, false, inner), [Write, WriteHeader(code)]);
            w.Metering? && Label(w) == code && WireStatus(Bottom(w).calls) == 200
  {
    var m, calls := Metering(0, false, inner), [Write, WriteHeader(code)];
    NoHijackGrant(m, calls);
    StatusClosedForm(m, calls);
    CallsReachBase(m, calls);
    assert calls[..|calls|] == calls;
    LastHeaderCons(Write, [WriteHeader(code)]);
    LastHeaderCons(WriteHeader(code), []);
    assert calls == [Write] + [WriteHeader(code)] && [WriteHeader(code)] == [WriteHeader(code)] + [];
    assert Bottom(ApplyAll(m, calls)).calls[0] == Write;
  }

  // ----- optional capabilities through a stack -----

  /** The layers of a stack, without the base. */
  datatype Layer = TrackingLayer(written: bool) | MeteringLayer(status: int, hijacked: bool)

  function Layers(w: Writer): seq<Layer> {
    match w
    case Base(_, _, _, _) => []
    case Tracking(written, inner) => [TrackingLayer(written)] + Layers(inner)
    case Metering(status, hijacked, inner) => [MeteringLayer(status, hijacked)] + Layers(inner)
  }

  /** Flush goes through any stack to the base exactly when the base is a Flusher, hijacked
      or not, and leaves every layer as it was. */
  lemma {:induction false} FlushReachesBase(w: Writer)
    ensures var w' := Apply(w, Flush);
            && Layers(w') == Layers(w)
            && Bottom(w').calls == Bottom(w).calls + if Bottom(w).flusher then [Flush] else []
  {
    if !w.Base? {
      FlushReachesBase(w.inner);
    }
  }

  /** So does every Write, hijacked or not. */
  lemma {:induction false} WriteReachesBase(w: Writer)
    ensures Bottom(Apply(w, Write)).calls == Bottom(w).calls + [Write]
  {
    if !w.Base? {
      WriteReachesBase(w.inner);
    }
  }

  /** A WriteHeader goes through exactly when no layer has been hijacked. */
  lemma {:induction false} HeaderReachesBase(w: Writer, code: Code)
    ensures Bottom(Apply(w, WriteHeader(code))).calls
         == Bottom(w).calls + if Quiet(w) then [WriteHeader(code)] else []
  {
    if !w.Base? {
      HeaderReachesBase(w.inner, code);
    }
  }

  /** A Hijack does exactly when every layer is a metering writer and the base has the method. */
  lemma {:induction false} HijackReachesBase(w: Writer)
    ensures Bottom(Apply(w, Hijack)).calls == Bottom(w).calls +
              if (forall l :: l in Layers(w) ==> l.MeteringLayer?) && Bottom(w).hijacker then [Hijack] else []
  {
    match w
    case Base(_, _, _, _) =>
    case Tracking(written, inner) =>
      assert Layers(w)[0] == TrackingLayer(written) && Layers(w)[0] in Layers(w);
    case Metering(_, _, inner) =>
      HijackReachesBase(inner);
      assert forall l :: l in Layers(w) <==> l == Layers(w)[0] || l in Layers(inner);
  }

  /** Hijack succeeds exactly when every layer is a metering writer and the base grants it. */
  lemma {:induction false} HijackSucceedsIff(w: Writer)
    ensures Grants(w) <==>
            && (forall l :: l in Layers(w) ==> l.MeteringLayer?)
            && Grants(Bottom(w))
  {
    match w
    case Base(_, _, _, _) =>
    case Tracking(written, inner) =>
      assert Layers(w)[0] == TrackingLayer(written) && Layers(w)[0] in Layers(w);
    case Metering(_, _, inner) =>
      HijackSucceedsIff(inner);
      assert forall l :: l in Layers(w) <==> l == Layers(w)[0] || l in Layers(inner);
  }

  predicate TakenOver(w: Writer) {
    forall l :: l in Layers(w) ==> l.MeteringLayer? && l.hijacked && l.status != 0
  }

  /** A granted Hijack marks every layer, each with a non-zero status. */
  lemma {:induction false} GrantedHijackMarksAll(w: Writer)
    requires Grants(w)
    ensures TakenOver(Apply(w, Hijack))
  {
    if w.Metering? {
      GrantedHijackMarksAll(w.inner);
    }
  }

  /** From then on no call on the stack changes any layer, nor lets a WriteHeader through. */
  lemma {:induction false} TakenOverIsFrozen(w: Writer, c: Call)
    requires TakenOver(w)
    ensures Layers(Apply(w, c)) == Layers(w)
    ensures c.WriteHeader? && !w.Base? ==> Apply(w, c) == w
  {
    if !w.Base? {
      assert Layers(w)[0] in Layers(w);
      assert forall l :: l in Layers(w.inner) ==> l in Layers(w);
      TakenOverIsFrozen(w.inner, c);
    }
  }

  lemma {:induction false} TakenOverForever(w: Writer, calls: seq<Call>)
    requires TakenOver(w)
    ensures Layers(ApplyAll(w, calls)) == Layers(w)
    decreases |calls|
  {
    if calls != [] {
      TakenOverIsFrozen(w, calls[0]);
      TakenOverForever(Apply(w, calls[0]), calls[1..]);
    }
  }
}
