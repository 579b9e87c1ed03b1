/** The registry of state codecs and the saved form of a signal tree. */
module Codecs {
  import opened Wrappers
  import opened Resume
  import opened Signals

  datatype Call<T> = Done(value: T) | Failed | Panicked

  datatype Codec = Codec(name: string, version: string, typ: string,
                         encode: Any -> Call<string>, decode: string -> Call<Any>)

  datatype Error = NoCodec | CodecFailed | CodecPanic | TypeMismatch | BadInfo
  datatype Result<T> = Ok(value: T) | Err(error: Error)

  datatype Encoded = Encoded(name: string, version: string, data: string)

  function Key(name: string, version: string): string { name + "\0" + version }

  // ---- the registry ----

  datatype Registry = Registry(byType: map<string, Codec>, byVersion: map<string, Codec>)

  /** The two maps describe the same codecs, one to one. */
  ghost predicate Matched(r: Registry) {
    && (forall t :: t in r.byType ==>
          var c := r.byType[t];
          c.typ == t && Key(c.name, c.version) in r.byVersion && r.byVersion[Key(c.name, c.version)] == c)
    && (forall k :: k in r.byVersion ==>
          var c := r.byVersion[k];
          Key(c.name, c.version) == k && c.typ in r.byType && r.byType[c.typ] == c)
  }

  ghost predicate Extends(r: Registry, later: Registry) {
    && (forall t :: t in r.byType ==> t in later.byType && later.byType[t] == r.byType[t])
    && (forall k :: k in r.byVersion ==> k in later.byVersion && later.byVersion[k] == r.byVersion[k])
  }

  lemma MatchedWith(r: Registry, c: Codec)
    requires Matched(r) && c.typ !in r.byType && Key(c.name, c.version) !in r.byVersion
    ensures var later := Registry(r.byType[c.typ := c], r.byVersion[Key(c.name, c.version) := c]);
            Matched(later) && Extends(r, later)
  {
  }

  datatype Registration = Registered | Invalid | VersionTaken | TypeTaken

  class StateCodecs {
    var byType: map<string, Codec>
    var byVersion: map<string, Codec>

    function View(): Registry
      reads this
    {
      Registry(byType, byVersion)
    }

    constructor ()
      ensures View() == Registry(map[], map[]) && Matched(View())
    {
      byType, byVersion := map[], map[];
    }

    /** Registering the same type again under the same name and version succeeds and keeps the codec that
        is there. */
    method Register(name: string, version: string, typ: string, encode: Option<Any -> Call<string>>,
                    decode: Option<string -> Call<Any>>) returns (r: Registration)
      requires Matched(View())
      modifies this
      ensures Matched(View()) && Extends(old(View()), View())
      ensures r == Invalid <==> name == "" || version == "" || encode.None? || decode.None?
      ensures r != Registered ==> View() == old(View())
      ensures r == VersionTaken ==> Key(name, version) in byVersion && byVersion[Key(name, version)].typ != typ
      ensures r == TypeTaken ==> typ in byType && Key(name, version) !in byVersion
      ensures r == Registered ==> Key(name, version) in byVersion && byVersion[Key(name, version)].typ == typ
      ensures r == Registered ==> byVersion.Keys == old(byVersion.Keys) + {Key(name, version)}
      ensures r == Registered && Key(name, version) !in old(byVersion) ==>
                byVersion[Key(name, version)] == Codec(name, version, typ, encode.value, decode.value)
      ensures r == Registered ==>
                var codec := byVersion[Key(name, version)];
                forall v: Any :: v.Held? && v.typ == typ && TakenBy(codec, v) ==>
                  Encode(View(), v) == Ok(Some(SavedBy(codec, v)))
    {
      if name == "" || version == "" || encode.None? || decode.None? {
        return Invalid;
      }
      var key := Key(name, version);
      if key in byVersion {
        return if byVersion[key].typ == typ then Registered else VersionTaken;
      }
      if typ in byType {
        return TypeTaken;
      }
      var c := Codec(name, version, typ, encode.value, decode.value);
      MatchedWith(View(), c);
      byType := byType[typ := c];
      byVersion := byVersion[key := c];
      return Registered;
    }
  }

  // ---- one state ----

  function Encode(r: Registry, state: Any): Result<Option<Encoded>> {
    if state == Nil then Ok(None)
    else if state.typ !in r.byType then Err(NoCodec)
    else
      var c := r.byType[state.typ];
      match c.encode(state)
      case Done(data) => Ok(Some(Encoded(c.name, c.version, data)))
      case Failed => Err(CodecFailed)
      case Panicked => Err(CodecPanic)
  }

  function Decode(r: Registry, state: Option<Encoded>): Result<Any> {
    if state.None? then Ok(Nil)
    else
      var e := state.value;
      if Key(e.name, e.version) !in r.byVersion then Err(NoCodec)
      else
        var c := r.byVersion[Key(e.name, e.version)];
        match c.decode(e.data)
        case Done(v) => if v.Held? && v.typ == c.typ then Ok(v) else Err(TypeMismatch)
        case Failed => Err(CodecFailed)
        case Panicked => Err(CodecPanic)
  }

  predicate TakenBy(c: Codec, state: Any) { c.encode(state).Done? }

  /** What a codec that takes a state leaves: its own name and version, and what it wrote. */
  function SavedBy(c: Codec, state: Any): Encoded
    requires TakenBy(c, state)
  {
    Encoded(c.name, c.version, c.encode(state).value)
  }

  /** The state's type has a codec. */
  predicate Covered(r: Registry, state: Any) { state.Held? && state.typ in r.byType }

  /** There is nothing to save, or the codec of the state's type takes it. */
  predicate CanSave(r: Registry, state: Any) {
    state == Nil || (Covered(r, state) && TakenBy(r.byType[state.typ], state))
  }

  /** A state is saved exactly when it can be, by the codec of its type, and every refusal has its cause. */
  lemma EncodeExactly(r: Registry, state: Any)
    ensures Encode(r, state).Ok? <==> CanSave(r, state)
    ensures state == Nil ==> Encode(r, state) == Ok(None)
    ensures state != Nil && CanSave(r, state) ==> Encode(r, state) == Ok(Some(SavedBy(r.byType[state.typ], state)))
    ensures Encode(r, state) == Err(NoCodec) <==> state != Nil && !Covered(r, state)
    ensures Encode(r, state) == Err(CodecFailed) <==> Covered(r, state) && r.byType[state.typ].encode(state).Failed?
    ensures Encode(r, state) == Err(CodecPanic) <==> Covered(r, state) && r.byType[state.typ].encode(state).Panicked?
  {
  }

  /** The codec a saved state names reads it, and gives a value of its own type. */
  predicate CanRead(r: Registry, e: Encoded) {
    Key(e.name, e.version) in r.byVersion
    && var c := r.byVersion[Key(e.name, e.version)];
       var v := c.decode(e.data);
       v.Done? && v.value.Held? && v.value.typ == c.typ
  }

  /** A saved state is read exactly when its codec is there and gives a value of its own type, and every
      refusal has its cause. */
  lemma DecodeExactly(r: Registry, state: Option<Encoded>)
    ensures state.None? ==> Decode(r, state) == Ok(Nil)
    ensures Decode(r, state).Ok? <==> state.None? || CanRead(r, state.value)
    ensures state.Some? && CanRead(r, state.value) ==>
              var e := state.value;
              Decode(r, state) == Ok(r.byVersion[Key(e.name, e.version)].decode(e.data).value)
    ensures Decode(r, state) == Err(NoCodec) <==>
              state.Some? && Key(state.value.name, state.value.version) !in r.byVersion
    ensures state.Some? && Key(state.value.name, state.value.version) in r.byVersion ==>
              var v := r.byVersion[Key(state.value.name, state.value.version)].decode(state.value.data);
              && (Decode(r, state) == Err(CodecFailed) <==> v.Failed?)
              && (Decode(r, state) == Err(CodecPanic) <==> v.Panicked?)
              && (Decode(r, state) == Err(TypeMismatch) <==> v.Done? && !CanRead(r, state.value))
  {
  }

  /** Every registered codec reads back what it wrote. */
  ghost predicate Faithful(r: Registry) {
    forall t, v: Any :: t in r.byType && v.Held? && v.typ == t && r.byType[t].encode(v).Done? ==>
      r.byType[t].decode(r.byType[t].encode(v).value) == Done(v)
  }

  /** A saved state is read back by the codec that wrote it, whatever was registered since. */
  lemma StateRoundTrip(r: Registry, later: Registry, state: Any)
    requires Matched(r) && Faithful(r) && Extends(r, later) && CanSave(r, state)
    ensures Encode(r, state).Ok? && Decode(later, Encode(r, state).value) == Ok(state)
  {
  }

  // ---- the tree ----

  /** The JSON text of a signal's information: how it is written, and what reading it back gives. */
  datatype Texts = Texts(marshal: Any -> Call<string>, unmarshal: string -> Call<Any>, normal: Any -> Any)

  ghost predicate ReadsBack(t: Texts) {
    forall v: Any :: t.marshal(v).Done? ==>
      t.marshal(v).value != "" && t.unmarshal(t.marshal(v).value) == Done(t.normal(v))
  }

  datatype Persisted =
    | NotSaved
    | Persisted(id: Id, address: Address, info: string, state: Option<Encoded>, subs: seq<Persisted>, isRoot: bool)

  function EncodeSignal(r: Registry, t: Texts, s: Signal): Result<Persisted>
    decreases s, 0
  {
    if s.Missing? then Ok(NotSaved)
    else
      match Encode(r, s.state)
      case Err(e) => Err(e)
      case Ok(state) =>
        match t.marshal(s.info)
        case Failed => Err(BadInfo)
        case Panicked => Err(CodecPanic)
        case Done(info) =>
          match EncodeSubs(r, t, s, |s.subs|)
          case Err(e) => Err(e)
          case Ok(subs) => Ok(Persisted(s.id, s.address, info, state, subs, s.isRoot))
  }

  /** The first n children, up to the first that cannot be saved. */
  function EncodeSubs(r: Registry, t: Texts, s: Signal, n: nat): (subs: Result<seq<Persisted>>)
    requires s.Signal? && n <= |s.subs|
    ensures subs.Ok? ==> |subs.value| == n
    decreases s, 0, n
  {
    if n == 0 then Ok([])
    else
      match EncodeSubs(r, t, s, n - 1)
      case Err(e) => Err(e)
      case Ok(front) =>
        match EncodeSignal(r, t, s.subs[n - 1])
        case Err(e) => Err(e)
        case Ok(last) => Ok(front + [last])
  }

  function DecodeSignal(r: Registry, t: Texts, p: Persisted): Result<Signal>
    decreases p, 0
  {
    if p.NotSaved? then Ok(Missing)
    else
      match Decode(r, p.state)
      case Err(e) => Err(e)
      case Ok(state) =>
        var info := if p.info == "" then Done(Nil) else t.unmarshal(p.info);
        if !info.Done? then Err(BadInfo)
        else
          match DecodeSubs(r, t, p, |p.subs|)
          case Err(e) => Err(e)
          case Ok(subs) => Ok(Signal(p.id, p.address, info.value, state, subs, p.isRoot))
  }

  function DecodeSubs(r: Registry, t: Texts, p: Persisted, n: nat): Result<seq<Signal>>
    requires p.Persisted? && n <= |p.subs|
    decreases p, 0, n
  {
    if n == 0 then Ok([])
    else
      match DecodeSubs(r, t, p, n - 1)
      case Err(e) => Err(e)
      case Ok(front) =>
        match DecodeSignal(r, t, p.subs[n - 1])
        case Err(e) => Err(e)
        case Ok(last) => Ok(front + [last])
  }

  /** The tree with its information as JSON gives it back; nothing else differs. */
  function Normal(t: Texts, s: Signal): Signal {
    if s.Missing? then Missing
    else s.(info := t.normal(s.info), subs := seq(|s.subs|, i requires 0 <= i < |s.subs| => Normal(t, s.subs[i])))
  }

  /** Saving and restoring a tree gives it back: ids, addresses, states, root marks and shape, also after
      any later registrations. */
  lemma {:induction false} SignalRoundTrip(r: Registry, later: Registry, t: Texts, s: Signal)
    requires Matched(r) && Faithful(r) && Extends(r, later) && ReadsBack(t) && EncodeSignal(r, t, s).Ok?
    ensures DecodeSignal(later, t, EncodeSignal(r, t, s).value) == Ok(Normal(t, s))
    decreases s, 1
  {
    if s.Signal? {
      var p := EncodeSignal(r, t, s).value;
      EncodeExactly(r, s.state);
      StateRoundTrip(r, later, s.state);
      assert p.subs[..|s.subs|] == p.subs;
      SubsRoundTrip(r, later, t, s, |s.subs|, p);
      assert DecodeSubs(later, t, p, |p.subs|).value == Normal(t, s).subs;
    }
  }

  lemma {:induction false} SubsRoundTrip(r: Registry, later: Registry, t: Texts, s: Signal, n: nat, p: Persisted)
    requires Matched(r) && Faithful(r) && Extends(r, later) && ReadsBack(t)
    requires s.Signal? && n <= |s.subs| && EncodeSubs(r, t, s, n).Ok?
    requires p.Persisted? && n <= |p.subs| && EncodeSubs(r, t, s, n).value == p.subs[..n]
    ensures var subs := DecodeSubs(later, t, p, n);
            subs.Ok? && |subs.value| == n && forall i :: 0 <= i < n ==> subs.value[i] == Normal(t, s.subs[i])
    decreases s, 0, n
  {
    if n > 0 {
      assert p.subs[..n][..n - 1] == p.subs[..n - 1];
      assert EncodeSubs(r, t, s, n - 1).value == p.subs[..n - 1];
      SubsRoundTrip(r, later, t, s, n - 1, p);
      SignalRoundTrip(r, later, t, s.subs[n - 1]);
      assert p.subs[..n][n - 1] == p.subs[n - 1];
    }
  }

  /** A saved state gives back the value v. */
  predicate ReadAs(r: Registry, state: Option<Encoded>, v: Any) {
    if state.None? then v == Nil
    else
      var e := state.value;
      CanRead(r, e) && r.byVersion[Key(e.name, e.version)].decode(e.data) == Done(v)
  }

  predicate InfoAs(t: Texts, info: string, v: Any) { if info == "" then v == Nil else t.unmarshal(info) == Done(v) }

  /** A saved tree gives back the tree s: the same ids, addresses, root marks and shape, each state as its codec
      reads it, and each information as JSON does. */
  predicate Restores(r: Registry, t: Texts, p: Persisted, s: Signal)
    decreases p
  {
    if p.NotSaved? then s.Missing?
    else
      && s.Signal? && s.id == p.id && s.address == p.address && s.isRoot == p.isRoot
      && ReadAs(r, p.state, s.state) && InfoAs(t, p.info, s.info)
      && |s.subs| == |p.subs| && forall i :: 0 <= i < |p.subs| ==> Restores(r, t, p.subs[i], s.subs[i])
  }

  /** A tree is restored exactly when each of its parts is. */
  lemma {:induction false} RestoredExactly(r: Registry, t: Texts, p: Persisted, s: Signal)
    ensures DecodeSignal(r, t, p) == Ok(s) <==> Restores(r, t, p, s)
    decreases p, 1
  {
    if p.Persisted? && s.Signal? {
      DecodeExactly(r, p.state);
      SubsRestoredExactly(r, t, p, |p.subs|, s.subs);
    }
  }

  lemma {:induction false} SubsRestoredExactly(r: Registry, t: Texts, p: Persisted, n: nat, subs: seq<Signal>)
    requires p.Persisted? && n <= |p.subs|
    ensures DecodeSubs(r, t, p, n) == Ok(subs) <==>
            |subs| == n && forall i :: 0 <= i < n ==> Restores(r, t, p.subs[i], subs[i])
    decreases p, 0, n
  {
    if n > 0 {
      var front := DecodeSubs(r, t, p, n - 1);
      if subs != [] {
        SubsRestoredExactly(r, t, p, n - 1, subs[..|subs| - 1]);
        RestoredExactly(r, t, p.subs[n - 1], subs[|subs| - 1]);
        assert subs == subs[..|subs| - 1] + [subs[|subs| - 1]];
      }
    }
  }

  predicate Savable(r: Registry, t: Texts, n: Signal) {
    n.Signal? && CanSave(r, n.state) && t.marshal(n.info).Done?
  }

  predicate AllSavable(r: Registry, t: Texts, nodes: seq<Signal>) {
    forall i {:trigger nodes[i]} :: 0 <= i < |nodes| ==> Savable(r, t, nodes[i])
  }

  lemma AllConcat(r: Registry, t: Texts, a: seq<Signal>, b: seq<Signal>)
    ensures AllSavable(r, t, a + b) <==> AllSavable(r, t, a) && AllSavable(r, t, b)
  {
    assert (a + b)[..|a|] == a && (a + b)[|a|..] == b;
    if AllSavable(r, t, a + b) {
      forall i | 0 <= i < |b| ensures Savable(r, t, b[i]) { assert (a + b)[|a| + i] == b[i]; }
    }
  }

  /** A tree can be saved exactly when each signal's state has a codec that takes it and its information
      can be written. */
  lemma {:induction false} SavedExactly(r: Registry, t: Texts, s: Signal)
    ensures EncodeSignal(r, t, s).Ok? <==> AllSavable(r, t, Nodes(s))
    decreases s, 1
  {
    if s.Signal? {
      SubsSavedExactly(r, t, s, |s.subs|);
      AllConcat(r, t, [s], NodesBelow(s, |s.subs|));
      assert AllSavable(r, t, [s]) <==> Savable(r, t, [s][0]);
      EncodeExactly(r, s.state);
    }
  }

  lemma {:induction false} SubsSavedExactly(r: Registry, t: Texts, s: Signal, n: nat)
    requires s.Signal? && n <= |s.subs|
    ensures EncodeSubs(r, t, s, n).Ok? <==> AllSavable(r, t, NodesBelow(s, n))
    decreases s, 0, n
  {
    if n > 0 {
      SubsSavedExactly(r, t, s, n - 1);
      SavedExactly(r, t, s.subs[n - 1]);
      AllConcat(r, t, NodesBelow(s, n - 1), Nodes(s.subs[n - 1]));
    }
  }

  // ---- what a restored tree resumes ----

  predicate SameButInfo(a: Signal, b: Signal) {
    && a.Signal? && b.Signal? && a.id == b.id && a.address == b.address && a.state == b.state && a.isRoot == b.isRoot
  }

  lemma {:induction false} NormalNodes(t: Texts, s: Signal)
    ensures |Nodes(Normal(t, s))| == |Nodes(s)|
    ensures forall i :: 0 <= i < |Nodes(s)| ==> SameButInfo(Nodes(Normal(t, s))[i], Nodes(s)[i])
    decreases s, 1
  {
    if s.Signal? { NormalNodesBelow(t, s, |s.subs|); }
  }

  lemma {:induction false} NormalNodesBelow(t: Texts, s: Signal, n: nat)
    requires s.Signal? && n <= |s.subs|
    ensures |NodesBelow(Normal(t, s), n)| == |NodesBelow(s, n)|
    ensures forall i :: 0 <= i < |NodesBelow(s, n)| ==> SameButInfo(NodesBelow(Normal(t, s), n)[i], NodesBelow(s, n)[i])
    decreases s, 0, n
  {
    if n > 0 {
      NormalNodesBelow(t, s, n - 1);
      NormalNodes(t, s.subs[n - 1]);
    }
  }

  lemma {:induction false} SameWrites(m: Saved, a: seq<Signal>, b: seq<Signal>)
    requires |a| == |b| && forall i :: 0 <= i < |a| ==> SameButInfo(a[i], b[i]) && a[i].Signal? && b[i].Signal?
    ensures WriteAll(m, a) == WriteAll(m, b)
  {
    if a != [] {
      assert SameButInfo(a[|a| - 1], b[|a| - 1]);
      SameWrites(m, a[..|a| - 1], b[..|a| - 1]);
    }
  }

  /** A restored tree fills the resume maps exactly as the interrupted one did. */
  lemma RestoredResumesAlike(r: Registry, later: Registry, t: Texts, s: Signal)
    requires Matched(r) && Faithful(r) && Extends(r, later) && ReadsBack(t) && EncodeSignal(r, t, s).Ok?
    ensures var back := DecodeSignal(later, t, EncodeSignal(r, t, s).value);
            back.Ok? && Flattened(back.value) == Flattened(s)
  {
    SignalRoundTrip(r, later, t, s);
    NormalNodes(t, s);
    NodesAreSignals(s);
    NodesAreSignals(Normal(t, s));
    SameWrites(Saved(map[], map[]), Nodes(Normal(t, s)), Nodes(s));
  }
}
