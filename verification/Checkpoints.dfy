/** Checkpoint chains: what the operations mean, the memory backend on the heap, the file backend on a
    disk, and their agreement. */
module Checkpoints {
  import opened Wrappers

  type Byte = b: int | 0 <= b < 256

  /** An absent payload or metadata is the empty one. created 0 is the zero time. */
  datatype Checkpoint = Checkpoint(
    id: string, namespace_: string, parent: string, payload: seq<Byte>, metadata: map<string, string>, created: nat)

  type Chain = seq<Checkpoint>

  // ---- one chain ----

  /** The place of the first checkpoint with an id, or the length. */
  function Find(chain: Chain, id: string): (i: nat)
    ensures i <= |chain| && (i < |chain| ==> chain[i].id == id) && forall j :: 0 <= j < i ==> chain[j].id != id
  {
    if chain == [] then 0 else if chain[0].id == id then 0 else 1 + Find(chain[1..], id)
  }

  function Stamped(cp: Checkpoint, now: nat): Checkpoint { if cp.created == 0 then cp.(created := now) else cp }

  function PutIn(chain: Chain, cp: Checkpoint): Chain {
    var i := Find(chain, cp.id);
    if i < |chain| then chain[i := cp] else chain + [cp]
  }

  function GetIn(chain: Chain, id: string): Option<Checkpoint> {
    var i := Find(chain, id);
    if i < |chain| then Some(chain[i]) else None
  }

  function LatestIn(chain: Chain): Option<Checkpoint> { if chain == [] then None else Some(chain[|chain| - 1]) }

  function Bound(n: nat, limit: int): nat { if 0 < limit < n then limit else n }

  /** From new to old, at most `limit` of them unless the limit is not positive. */
  function ListIn(chain: Chain, limit: int): Chain {
    seq(Bound(|chain|, limit), i requires 0 <= i < Bound(|chain|, limit) => chain[|chain| - 1 - i])
  }

  predicate NoTwins(chain: Chain) { forall i, j :: 0 <= i < j < |chain| ==> chain[i].id != chain[j].id }

  lemma FindIs(chain: Chain, id: string, i: nat)
    requires NoTwins(chain) && i < |chain| && chain[i].id == id
    ensures Find(chain, id) == i
  {
  }

  /** Putting keeps ids apart, is read back, and touches no other id. */
  lemma PutMeans(chain: Chain, cp: Checkpoint, other: string)
    requires NoTwins(chain)
    ensures NoTwins(PutIn(chain, cp)) && GetIn(PutIn(chain, cp), cp.id) == Some(cp)
    ensures other != cp.id ==> GetIn(PutIn(chain, cp), other) == GetIn(chain, other)
    ensures PutIn(PutIn(chain, cp), cp) == PutIn(chain, cp)
    ensures |PutIn(chain, cp)| == |chain| + (if exists i :: 0 <= i < |chain| && chain[i].id == cp.id then 0 else 1)
    ensures forall i :: 0 <= i < |chain| ==> PutIn(chain, cp)[i].id == chain[i].id
  {
    var after := PutIn(chain, cp);
    var i := Find(chain, cp.id);
    FindIs(after, cp.id, i);
    if other != cp.id && Find(chain, other) < |chain| {
      FindIs(after, other, Find(chain, other));
    }
  }

  /** The latest checkpoint is the one just put exactly when it was new or already stood last: putting an
      older id again leaves it where it was. */
  lemma LatestIsPutExactly(chain: Chain, cp: Checkpoint)
    requires NoTwins(chain)
    ensures LatestIn(PutIn(chain, cp)) == Some(cp) <==>
            Find(chain, cp.id) == |chain| || chain[|chain| - 1].id == cp.id
  {
  }

  lemma LatestHeadsTheList(chain: Chain, limit: int)
    ensures chain == [] <==> ListIn(chain, limit) == []
    ensures chain != [] ==> LatestIn(chain) == Some(ListIn(chain, limit)[0])
    ensures limit > 0 ==> ListIn(chain, limit) <= ListIn(chain, 0)
    ensures forall i :: 0 <= i < |chain| ==> ListIn(chain, 0)[|chain| - 1 - i] == chain[i]
    ensures limit <= 0 ==> |ListIn(chain, limit)| == |chain|
    ensures limit > 0 ==> |ListIn(chain, limit)| <= limit && (|chain| <= limit ==> |ListIn(chain, limit)| == |chain|)
    ensures 0 < limit < |chain| ==> |ListIn(chain, limit)| == limit
  {
  }

  // ---- what a sequence of operations means ----

  datatype Op =
    | Put(cp: Checkpoint, now: nat)
    | Get(n: string, id: string)
    | Latest(n: string)
    | List(n: string, limit: int)
    | Delete(n: string)

  datatype Answer = Wrote | Failed | Got(one: Option<Checkpoint>) | Listed(all: Chain)

  type Chains = map<string, Chain>

  function ChainOf(m: Chains, n: string): Chain { if n in m then m[n] else [] }

  function Do(m: Chains, op: Op): (Answer, Chains) {
    match op
    case Put(cp, now) => (Wrote, m[cp.namespace_ := PutIn(ChainOf(m, cp.namespace_), Stamped(cp, now))])
    case Get(n, id) => (Got(GetIn(ChainOf(m, n), id)), m)
    case Latest(n) => (Got(LatestIn(ChainOf(m, n))), m)
    case List(n, limit) => (Listed(ListIn(ChainOf(m, n), limit)), m)
    case Delete(n) => (Wrote, m - {n})
  }

  function After(m: Chains, ops: seq<Op>): Chains {
    if ops == [] then m else Do(After(m, ops[..|ops| - 1]), ops[|ops| - 1]).1
  }

  /** Each operation in terms of what the chains hold: putting replaces the checkpoint of that namespace and id,
      with the time filled in if it had none; deleting empties one namespace; the rest only look. */
  lemma OperationMeans(m: Chains, op: Op, n: string, x: Checkpoint)
    requires forall n :: NoTwins(ChainOf(m, n))
    ensures var (answer, after) := Do(m, op);
            match op
            case Put(cp, now) =>
              var stored := if cp.created == 0 then cp.(created := now) else cp;
              && answer == Wrote
              && (x in ChainOf(after, n) <==>
                    (n == cp.namespace_ && x == stored)
                    || (x in ChainOf(m, n) && (n == cp.namespace_ ==> x.id != cp.id)))
            case Get(space, id) =>
              && (answer == Got(Some(x)) <==> x in ChainOf(m, space) && x.id == id)
              && (answer == Got(None) <==> forall y :: y in ChainOf(m, space) ==> y.id != id) && after == m
            case Latest(space) =>
              answer == Got(if ChainOf(m, space) == [] then None else Some(ChainOf(m, space)[|ChainOf(m, space)| - 1]))
              && after == m
            case List(space, limit) =>
              && answer.Listed? && (x in answer.all ==> x in ChainOf(m, space)) && after == m
              && (limit <= 0 || |ChainOf(m, space)| <= limit ==> (x in ChainOf(m, space) ==> x in answer.all))
            case Delete(space) =>
              answer == Wrote && (x in ChainOf(after, n) <==> n != space && x in ChainOf(m, n))
  {
    assert NoTwins(ChainOf(m, if op.Put? then op.cp.namespace_ else op.n));
    if op.Put? && n == op.cp.namespace_ {
      PutHolds(ChainOf(m, n), Stamped(op.cp, op.now), x);
    } else if op.Get? {
      GetHolds(ChainOf(m, op.n), op.id, x);
    } else if op.List? {
      ListHolds(ChainOf(m, op.n), op.limit, x);
    }
  }

  lemma PutHolds(chain: Chain, cp: Checkpoint, x: Checkpoint)
    requires NoTwins(chain)
    ensures x in PutIn(chain, cp) <==> x == cp || (x in chain && x.id != cp.id)
  {
    var after, i := PutIn(chain, cp), Find(chain, cp.id);
    assert after[i] == cp;
    if x in chain && x.id != cp.id {
      var k :| 0 <= k < |chain| && chain[k] == x;
      assert after[k] == x;
    }
  }

  lemma GetHolds(chain: Chain, id: string, x: Checkpoint)
    requires NoTwins(chain)
    ensures GetIn(chain, id) == Some(x) <==> x in chain && x.id == id
    ensures GetIn(chain, id) == None <==> forall y :: y in chain ==> y.id != id
  {
    if x in chain && x.id == id {
      var k :| 0 <= k < |chain| && chain[k] == x;
      FindIs(chain, id, k);
    }
  }

  lemma ListHolds(chain: Chain, limit: int, x: Checkpoint)
    ensures x in ListIn(chain, limit) ==> x in chain
    ensures limit <= 0 || |chain| <= limit ==> (x in chain ==> x in ListIn(chain, limit))
  {
    if x in chain && (limit <= 0 || |chain| <= limit) {
      var k :| 0 <= k < |chain| && chain[k] == x;
      assert ListIn(chain, limit)[|chain| - 1 - k] == x;
    }
  }

  /** No chain ever holds an id twice. */
  lemma {:induction false} NeverTwins(ops: seq<Op>, n: string)
    ensures NoTwins(ChainOf(After(map[], ops), n))
  {
    if ops != [] {
      var front, op := After(map[], ops[..|ops| - 1]), ops[|ops| - 1];
      NeverTwins(ops[..|ops| - 1], n);
      if op.Put? && op.cp.namespace_ == n { PutMeans(ChainOf(front, n), Stamped(op.cp, op.now), ""); }
    }
  }

  // ---- the memory backend ----

  /** Metadata on the heap. */
  class Table {
    var entries: map<string, string>

    constructor (entries: map<string, string>)
      ensures this.entries == entries
    {
      this.entries := entries;
    }
  }

  /** A checkpoint with its payload and its metadata on the heap, where a caller may hold them too. */
  datatype Cell = Cell(
    id: string, namespace_: string, parent: string, payload: array<Byte>, metadata: Table, created: nat)

  function ValueOf(c: Cell): Checkpoint
    reads c.payload, c.metadata
  {
    Checkpoint(c.id, c.namespace_, c.parent, c.payload[..], c.metadata.entries, c.created)
  }

  ghost function Parts(cells: seq<Cell>): set<object> {
    (set c | c in cells :: c.payload) + (set c | c in cells :: c.metadata)
  }

  ghost function Values(cells: seq<Cell>): Chain
    reads Parts(cells)
  {
    seq(|cells|, i requires 0 <= i < |cells| reads Parts(cells) => ValueOf(cells[i]))
  }

  /** A deep copy: neither the bytes nor the metadata are shared. */
  method Clone(c: Cell) returns (copy: Cell)
    ensures fresh(copy.payload) && fresh(copy.metadata)
    ensures ValueOf(copy) == ValueOf(c)
  {
    var bytes := new Byte[c.payload.Length](i requires 0 <= i < c.payload.Length reads c.payload => c.payload[i]);
    var metadata := new Table(c.metadata.entries);
    copy := c.(payload := bytes, metadata := metadata);
  }

  lemma PlacedIsPut(chain: seq<Cell>, stored: Cell, i: nat)
    requires i == Find(Values(chain), stored.id)
    ensures Values(if i < |chain| then chain[i := stored] else chain + [stored])
         == PutIn(Values(chain), ValueOf(stored))
  {
  }

  class Memory {
    var ns: map<string, seq<Cell>>
    ghost var repr: set<object>

    /** Everything stored is the memory's own. */
    ghost predicate Valid()
      reads this
    {
      forall n :: n in ns ==> Parts(ns[n]) <= repr
    }

    /** The chains, by value. */
    ghost function View(): Chains
      requires Valid()
      reads this, repr
    {
      map n | n in ns :: Values(ns[n])
    }

    constructor ()
      ensures Valid() && repr == {} && View() == map[]
    {
      ns, repr := map[], {};
    }

    method Put(cp: Cell, now: nat)
      requires Valid()
      modifies this
      ensures Valid() && fresh(repr - old(repr)) && old(repr) <= repr
      ensures View() == Do(old(View()), Op.Put(old(ValueOf(cp)), now)).1
    {
      var stored := Clone(if cp.created == 0 then cp.(created := now) else cp);
      Place(stored);
    }

    /** A checkpoint with parts of its own. */
    method Place(stored: Cell)
      requires Valid()
      modifies this
      ensures Valid() && repr == old(repr) + {stored.payload, stored.metadata}
      ensures View()
           == old(View())[stored.namespace_ := PutIn(ChainOf(old(View()), stored.namespace_), ValueOf(stored))]
    {
      var cells := Placed(stored);
      Replace(stored.namespace_, cells, stored);
    }

    /** The chain with the checkpoint in it: in place of its namesake, or at the end. */
    method Placed(stored: Cell) returns (cells: seq<Cell>)
      requires Valid()
      ensures Parts(cells) <= repr + {stored.payload, stored.metadata}
      ensures Values(cells) == PutIn(ChainOf(View(), stored.namespace_), ValueOf(stored))
    {
      var n := stored.namespace_;
      var i := IndexIn(n, stored.id);
      var chain := if n in ns then ns[n] else [];
      PlacedIsPut(chain, stored, i);
      return if i < |chain| then chain[i := stored] else chain + [stored];
    }

    /** A namespace's chain with one new checkpoint in it. */
    method Replace(n: string, cells: seq<Cell>, ghost stored: Cell)
      requires Valid() && Parts(cells) <= repr + {stored.payload, stored.metadata}
      modifies this
      ensures Valid() && repr == old(repr) + {stored.payload, stored.metadata}
      ensures View() == old(View())[n := Values(cells)]
    {
      repr := repr + {stored.payload, stored.metadata};
      ns := ns[n := cells];
    }

    method IndexIn(n: string, id: string) returns (i: nat)
      requires Valid()
      ensures i == Find(ChainOf(View(), n), id)
    {
      var chain := if n in ns then ns[n] else [];
      i := 0;
      while i < |chain| && chain[i].id != id
        invariant 0 <= i <= |chain| && forall j :: 0 <= j < i ==> chain[j].id != id
      {
        i := i + 1;
      }
      FirstIs(ChainOf(View(), n), id, i);
    }

    method Get(n: string, id: string) returns (r: Option<Cell>)
      requires Valid()
      ensures r.Some? ==> fresh(r.value.payload) && fresh(r.value.metadata)
      ensures (if r.Some? then Some(ValueOf(r.value)) else None) == GetIn(ChainOf(View(), n), id)
    {
      var i := IndexIn(n, id);
      if n !in ns || i == |ns[n]| {
        return None;
      }
      var copy := Clone(ns[n][i]);
      return Some(copy);
    }

    method Latest(n: string) returns (r: Option<Cell>)
      requires Valid()
      ensures r.Some? ==> fresh(r.value.payload) && fresh(r.value.metadata)
      ensures (if r.Some? then Some(ValueOf(r.value)) else None) == LatestIn(ChainOf(View(), n))
    {
      if n !in ns || |ns[n]| == 0 {
        return None;
      }
      var copy := Clone(ns[n][|ns[n]| - 1]);
      return Some(copy);
    }

    method List(n: string, limit: int) returns (out: seq<Cell>)
      requires Valid()
      ensures forall i :: 0 <= i < |out| ==> fresh(out[i].payload) && fresh(out[i].metadata)
      ensures |out| == |ListIn(ChainOf(View(), n), limit)|
      ensures forall i :: 0 <= i < |out| ==> ValueOf(out[i]) == ListIn(ChainOf(View(), n), limit)[i]
    {
      out := [];
      var chain := if n in ns then ns[n] else [];
      var i := |chain|;
      while i > 0 && !(limit > 0 && |out| >= limit)
        invariant 0 <= i <= |chain| && |out| == |chain| - i && (limit > 0 ==> |out| <= limit)
        invariant forall k :: 0 <= k < |out| ==> fresh(out[k].payload) && fresh(out[k].metadata)
        invariant forall k :: 0 <= k < |out| ==> ValueOf(out[k]) == ChainOf(View(), n)[|chain| - 1 - k]
      {
        var copy := Clone(chain[i - 1]);
        out := out + [copy];
        i := i - 1;
      }
    }

    method Delete(n: string)
      requires Valid()
      modifies this`ns
      ensures Valid() && View() == old(View()) - {n}
    {
      ns := ns - {n};
    }
  }

  lemma FirstIs(chain: Chain, id: string, i: nat)
    requires i <= |chain| && (forall j :: 0 <= j < i ==> chain[j].id != id) && (i < |chain| ==> chain[i].id == id)
    ensures Find(chain, id) == i
  {
  }

  /** Writing to what the memory does not own - the caller's own payload or metadata, or what it was handed -
      changes no chain. */
  method CallerWrites(m: Memory, a: array<Byte>, i: nat, b: Byte, table: Table, entries: map<string, string>)
    requires m.Valid() && a !in m.repr && table !in m.repr && i < a.Length
    modifies a, table
    ensures m.Valid() && m.View() == old(m.View())
  {
    a[i] := b;
    table.entries := entries;
  }

  /** Put, then write to the payload and the metadata that were put: the stored checkpoint keeps the old
      ones. */
  method PutThenWrite(m: Memory, cp: Cell, now: nat, i: nat, b: Byte, entries: map<string, string>)
    requires m.Valid() && cp.payload !in m.repr && cp.metadata !in m.repr && i < cp.payload.Length
    modifies m, cp.payload, cp.metadata
    ensures m.Valid() && m.View() == Do(old(m.View()), Op.Put(old(ValueOf(cp)), now)).1
  {
    m.Put(cp, now);
    CallerWrites(m, cp.payload, i, b, cp.metadata, entries);
  }

  // ---- the file backend ----

  /** How namespaces become file names, and chains become text. */
  datatype Format = Format(name: string -> string, text: Chain -> string, parse: string -> Option<Chain>)

  ghost predicate Faithful(f: Format) {
    && (forall a, b :: f.name(a) == f.name(b) ==> a == b)
    && (forall chain :: f.parse(f.text(chain)) == Some(chain))
  }

  /** A temporary name, which no namespace has. */
  ghost predicate Apart(f: Format, temp: string) { forall n :: f.name(n) != temp }

  type Disk = map<string, string>

  /** A namespace's chain as the disk has it; None when the file cannot be read back. */
  function Stored(f: Format, disk: Disk, n: string): Option<Chain> {
    if f.name(n) in disk then f.parse(disk[f.name(n)]) else Some([])
  }

  /** Where writing a chain can fail. After a failure the temporary file is removed, unless that fails too;
      `part` is what a broken write had put into it. */
  datatype Fault = NoFault | CreateFails | WriteFails | CloseFails | RenameFails

  /** The disk after each operation of a write that a crash may cut short. */
  function Stages(disk: Disk, temp: string, target: string, data: string, part: string): seq<Disk> {
    [disk, disk[temp := ""], disk[temp := part], disk[temp := data], (disk - {temp})[target := data]]
  }

  /** A crash at any point leaves the old chain or the new one, and every other namespace alone. */
  lemma CrashIsAtomic(f: Format, disk: Disk, temp: string, n: string, chain: Chain, part: string, k: nat, other: string)
    requires Faithful(f) && Apart(f, temp)
    requires k < |Stages(disk, temp, f.name(n), f.text(chain), part)|
    ensures var after := Stages(disk, temp, f.name(n), f.text(chain), part)[k];
            && (Stored(f, after, n) == Stored(f, disk, n) || Stored(f, after, n) == Some(chain))
            && (k == 4 ==> Stored(f, after, n) == Some(chain) && temp !in after)
            && (k == 3 ==> temp in after && after[temp] == f.text(chain))
            && (k < 4 ==> after - {temp} == disk - {temp})
            && (other != n ==> Stored(f, after, other) == Stored(f, disk, other))
  {
  }

  class File {
    const format: Format
    var disk: Disk

    constructor (format: Format, disk: Disk)
      ensures this.format == format && this.disk == disk
    {
      this.format, this.disk := format, disk;
    }

    method ReadChain(n: string) returns (r: Option<Chain>)
      ensures r == Stored(format, disk, n)
    {
      if format.name(n) !in disk {
        return Some([]);
      }
      r := format.parse(disk[format.name(n)]);
    }

    /** A write that fails changes no namespace; at most it leaves its temporary file behind, and only when
        removing that fails too. */
    method WriteChain(n: string, chain: Chain, temp: string, fault: Fault, part: string, removed: bool)
      returns (ok: bool)
      requires temp !in disk && temp != format.name(n)
      modifies this`disk
      ensures ok <==> fault == NoFault
      ensures ok ==> disk == old(disk)[format.name(n) := format.text(chain)]
      ensures !ok ==> disk == old(disk) || (!removed && temp in disk && disk == old(disk)[temp := disk[temp]])
    {
      var data := format.text(chain);
      if fault == CreateFails {
        return false;
      }
      disk := disk[temp := ""];
      disk := disk[temp := if fault == WriteFails then part else data];
      if fault != NoFault {
        if removed {
          disk := disk - {temp};
          assert disk == old(disk);
        }
        return false;
      }
      disk := (disk - {temp})[format.name(n) := data];
      return true;
    }

    method Put(cp: Checkpoint, now: nat, temp: string, fault: Fault, part: string, removed: bool) returns (r: Answer)
      requires temp !in disk && Apart(format, temp)
      modifies this`disk
      ensures fault == NoFault ==> (r, disk) == DoFile(format, old(disk), Op.Put(cp, now))
      ensures fault != NoFault ==> r == Failed && forall n :: Stored(format, disk, n) == Stored(format, old(disk), n)
    {
      var stored := Stamped(cp, now);
      var n := cp.namespace_;
      var read := ReadChain(n);
      if read.None? {
        return Failed;
      }
      var chain := read.value;
      var replaced := false;
      var i := 0;
      ghost var was := chain;
      while i < |chain| && !replaced
        invariant 0 <= i <= |was| == |chain| && disk == old(disk)
        invariant !replaced ==> chain == was && forall j :: 0 <= j < i ==> was[j].id != cp.id
        invariant replaced ==> Find(was, cp.id) < |was| && chain == was[Find(was, cp.id) := stored]
      {
        if chain[i].id == cp.id {
          FirstIs(was, cp.id, i);
          chain := chain[i := stored];
          replaced := true;
        }
        i := i + 1;
      }
      if !replaced {
        FirstIs(was, cp.id, |was|);
        chain := chain + [stored];
      }
      var ok := WriteChain(n, chain, temp, fault, part, removed);
      return if ok then Wrote else Failed;
    }

    method Get(n: string, id: string) returns (r: Answer)
      ensures (r, disk) == DoFile(format, disk, Op.Get(n, id))
    {
      var read := ReadChain(n);
      if read.None? {
        return Failed;
      }
      var chain := read.value;
      for i := 0 to |chain|
        invariant forall j :: 0 <= j < i ==> chain[j].id != id
      {
        if chain[i].id == id {
          FirstIs(chain, id, i);
          return Got(Some(chain[i]));
        }
      }
      FirstIs(chain, id, |chain|);
      return Got(None);
    }

    method Latest(n: string) returns (r: Answer)
      ensures (r, disk) == DoFile(format, disk, Op.Latest(n))
    {
      var read := ReadChain(n);
      if read.None? {
        return Failed;
      }
      var chain := read.value;
      if |chain| == 0 {
        return Got(None);
      }
      return Got(Some(chain[|chain| - 1]));
    }

    method List(n: string, limit: int) returns (r: Answer)
      ensures (r, disk) == DoFile(format, disk, Op.List(n, limit))
    {
      var read := ReadChain(n);
      if read.None? {
        return Failed;
      }
      var chain := read.value;
      var out: Chain := [];
      var i := |chain|;
      while i > 0 && !(limit > 0 && |out| >= limit)
        invariant 0 <= i <= |chain| && |out| == |chain| - i && (limit > 0 ==> |out| <= limit)
        invariant forall k :: 0 <= k < |out| ==> out[k] == chain[|chain| - 1 - k]
      {
        out := out + [chain[i - 1]];
        i := i - 1;
      }
      assert out == ListIn(chain, limit);
      return Listed(out);
    }

    method Delete(n: string)
      modifies this`disk
      ensures (Wrote, disk) == DoFile(format, old(disk), Op.Delete(n))
    {
      disk := disk - {format.name(n)};
    }
  }

  /** An operation on the disk: what it does to the chains, unless the chain cannot be read. */
  function DoFile(f: Format, disk: Disk, op: Op): (Answer, Disk) {
    if op.Delete? then (Wrote, disk - {f.name(op.n)})
    else
      var n := if op.Put? then op.cp.namespace_ else op.n;
      match Stored(f, disk, n)
      case None => (Failed, disk)
      case Some(chain) =>
        var (answer, after) := Do(map[n := chain], op);
        (answer, if op.Put? then disk[f.name(n) := f.text(after[n])] else disk)
  }

  // ---- the two backends side by side ----

  ghost predicate Agree(f: Format, m: Chains, disk: Disk) {
    forall n :: Stored(f, disk, n) == Some(ChainOf(m, n))
  }

  lemma StepAgrees(f: Format, m: Chains, disk: Disk, op: Op)
    requires Faithful(f) && Agree(f, m, disk)
    ensures Do(m, op).0 == DoFile(f, disk, op).0 && Agree(f, Do(m, op).1, DoFile(f, disk, op).1)
  {
    var m', disk' := Do(m, op).1, DoFile(f, disk, op).1;
    assert op.Put? ==> Stored(f, disk, op.cp.namespace_) == Some(ChainOf(m, op.cp.namespace_));
    assert !op.Put? ==> Stored(f, disk, op.n) == Some(ChainOf(m, op.n));
    forall n ensures Stored(f, disk', n) == Some(ChainOf(m', n)) {
      assert Stored(f, disk, n) == Some(ChainOf(m, n));
    }
  }

  /** Putting a value, with a payload and metadata made for it. */
  method PutValue(m: Memory, cp: Checkpoint, now: nat)
    requires m.Valid()
    modifies m
    ensures m.Valid() && fresh(m.repr - old(m.repr)) && m.View() == Do(old(m.View()), Op.Put(cp, now)).1
  {
    var bytes := new Byte[|cp.payload|](i requires 0 <= i < |cp.payload| => cp.payload[i]);
    var metadata := new Table(cp.metadata);
    var cell := Cell(cp.id, cp.namespace_, cp.parent, bytes, metadata, cp.created);
    assert ValueOf(cell) == cp;
    m.Put(cell, now);
  }

  method ListValues(m: Memory, n: string, limit: int) returns (all: Chain)
    requires m.Valid()
    ensures all == ListIn(ChainOf(m.View(), n), limit)
  {
    var cells := m.List(n, limit);
    all := [];
    for i := 0 to |cells|
      invariant |all| == i && forall k :: 0 <= k < i ==> all[k] == ValueOf(cells[k])
    {
      all := all + [ValueOf(cells[i])];
    }
  }

  /** One operation on the memory. */
  method OnMemory(m: Memory, op: Op) returns (r: Answer)
    requires m.Valid()
    modifies m
    ensures m.Valid() && fresh(m.repr - old(m.repr))
    ensures (r, m.View()) == Do(old(m.View()), op)
  {
    match op
    case Put(cp, now) =>
      PutValue(m, cp, now);
      return Wrote;
    case Get(n, id) =>
      var one := m.Get(n, id);
      return Got(if one.Some? then Some(ValueOf(one.value)) else None);
    case Latest(n) =>
      var one := m.Latest(n);
      return Got(if one.Some? then Some(ValueOf(one.value)) else None);
    case List(n, limit) =>
      var all := ListValues(m, n, limit);
      return Listed(all);
    case Delete(n) =>
      m.Delete(n);
      return Wrote;
  }

  /** The same operation on the files. */
  method OnFile(f: File, op: Op, temp: string) returns (r: Answer)
    requires temp !in f.disk && Apart(f.format, temp)
    modifies f`disk
    ensures (r, f.disk) == DoFile(f.format, old(f.disk), op) && temp !in f.disk
  {
    match op
    case Put(cp, now) => r := f.Put(cp, now, temp, NoFault, "", true);
    case Get(n, id) => r := f.Get(n, id);
    case Latest(n) => r := f.Latest(n);
    case List(n, limit) => r := f.List(n, limit);
    case Delete(n) =>
      f.Delete(n);
      r := Wrote;
  }

  function Answers(m: Chains, ops: seq<Op>): seq<Answer>
    decreases |ops|
  {
    if ops == [] then [] else [Do(m, ops[0]).0] + Answers(Do(m, ops[0]).1, ops[1..])
  }

  function FileAnswers(f: Format, disk: Disk, ops: seq<Op>): seq<Answer>
    decreases |ops|
  {
    if ops == [] then [] else [DoFile(f, disk, ops[0]).0] + FileAnswers(f, DoFile(f, disk, ops[0]).1, ops[1..])
  }

  /** Over every sequence of operations the files answer what the operations mean. */
  lemma {:induction false} FilesAnswer(f: Format, m: Chains, disk: Disk, ops: seq<Op>)
    requires Faithful(f) && Agree(f, m, disk)
    ensures FileAnswers(f, disk, ops) == Answers(m, ops)
    decreases |ops|
  {
    if ops != [] {
      StepAgrees(f, m, disk, ops[0]);
      FilesAnswer(f, Do(m, ops[0]).1, DoFile(f, disk, ops[0]).1, ops[1..]);
    }
  }

  lemma AnswersFirst(m: Chains, ops: seq<Op>, i: nat, a: seq<Answer>)
    requires i < |ops|
    ensures var (answer, after) := Do(m, ops[i]);
            a + [answer] + Answers(after, ops[i + 1..]) == a + Answers(m, ops[i..])
  {
    assert ops[i..][0] == ops[i] && ops[i..][1..] == ops[i + 1..];
  }

  /** One operation on either store. */
  method Both(m: Memory, f: File, op: Op, temp: string) returns (x: Answer, y: Answer)
    requires m.Valid() && f !in m.repr && Faithful(f.format) && Agree(f.format, m.View(), f.disk)
    requires temp !in f.disk && Apart(f.format, temp)
    modifies m, f`disk
    ensures m.Valid() && fresh(m.repr - old(m.repr)) && Agree(f.format, m.View(), f.disk) && temp !in f.disk
    ensures (x, m.View()) == Do(old(m.View()), op) && y == x
  {
    ghost var before, disk := m.View(), f.disk;
    StepAgrees(f.format, before, disk, op);
    x := OnMemory(m, op);
    y := OnFileBeside(m, f, op, temp);
  }

  /** The memory notices nothing of it. */
  method OnFileBeside(ghost m: Memory, f: File, op: Op, temp: string) returns (r: Answer)
    requires m.Valid() && f !in m.repr && temp !in f.disk && Apart(f.format, temp)
    modifies f`disk
    ensures (r, f.disk) == DoFile(f.format, old(f.disk), op) && temp !in f.disk
    ensures m.Valid() && m.View() == old(m.View()) && m.repr == old(m.repr)
  {
    r := OnFile(f, op, temp);
  }

  /** Over every sequence of operations the two backends, from stores that hold the same, give the same
      answers: those the operations mean. */
  method BothAnswer(m: Memory, f: File, ops: seq<Op>, temp: string) returns (a: seq<Answer>, b: seq<Answer>)
    requires m.Valid() && f !in m.repr && Faithful(f.format) && Agree(f.format, m.View(), f.disk)
    requires temp !in f.disk && Apart(f.format, temp)
    modifies m, f`disk
    ensures a == b == Answers(old(m.View()), ops)
  {
    a, b := [], [];
    assert ops[0..] == ops;
    for i := 0 to |ops|
      invariant m.Valid() && fresh(m.repr - old(m.repr)) && temp !in f.disk
      invariant a == b && a + Answers(m.View(), ops[i..]) == Answers(old(m.View()), ops)
      invariant Agree(f.format, m.View(), f.disk)
    {
      AnswersFirst(m.View(), ops, i, a);
      var x, y := Both(m, f, ops[i], temp);
      a, b := a + [x], b + [y];
    }
  }
}
