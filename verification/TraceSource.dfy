/** The plan file: one line per transaction, written by the compiler and read back in chunks. */
module TraceSource {
  import opened Prelude
  import opened TextFormats
  import opened AgentPlan

  /** The fields of one line of the plan, as text. */
  datatype TraceLine = TraceLine(hash: string, sender: string, recipient: string, value: string, nonce: nat, data: string)

  /** A transaction as the supervisor reads it; it is created when it is read. */
  datatype ReadTx = ReadTx(sender: Address, recipient: Address, value: int, nonce: nat, data: seq<byte>)

  function Printed(tx: PlanTx, hash: PlanTx -> seq<byte>): TraceLine {
    TraceLine(HexEncode(hash(tx)), "0x" + HexEncode(tx.sender), "0x" + HexEncode(tx.recipient), Decimal(tx.value), tx.nonce,
              "0x" + HexEncode(tx.data))
  }

  function Printer(hash: PlanTx -> seq<byte>): PlanTx -> TraceLine { (tx: PlanTx) => Printed(tx, hash) }

  method WritePlan(txs: seq<PlanTx>, hash: PlanTx -> seq<byte>) returns (lines: seq<TraceLine>)
    ensures lines == Mapped(txs, Printer(hash))
  {
    hide Printed;
    lines := [];
    for i := 0 to |txs|
      invariant lines == Mapped(txs[..i], Printer(hash))
    {
      MappedSnoc(txs[..i], txs[i], Printer(hash));
      assert txs[..i + 1] == txs[..i] + [txs[i]];
      lines := lines + [Printed(txs[i], hash)];
    }
    assert txs[..|txs|] == txs;
  }

  function Line2Tx(line: TraceLine): Option<ReadTx> {
    match (Hex2Addr(line.sender), Hex2Addr(line.recipient), IntValue(line.value), Hex2Bytes(line.data))
    case (Some(sender), Some(recipient), Some(value), Some(data)) => Some(ReadTx(sender, recipient, value, line.nonce, data))
    case _ => None
  }

  function AsRead(tx: PlanTx): ReadTx { ReadTx(tx.sender, tx.recipient, tx.value, tx.nonce, tx.data) }

  lemma DecimalHasNoSign(n: nat)
    ensures '0' <= Decimal(n)[0] <= '9'
    decreases n
  {
    if n >= 10 { DecimalHasNoSign(n / 10); }
  }

  /** A printed line reads back as the same transaction. */
  lemma LineRoundTrip(tx: PlanTx, hash: PlanTx -> seq<byte>)
    ensures Line2Tx(Printed(tx, hash)) == Some(AsRead(tx))
  {
    PrefixedRoundTrip(tx.sender);
    PrefixedRoundTrip(tx.recipient);
    PrefixedRoundTrip(tx.data);
    DecimalRoundTrip(tx.value);
    DecimalHasNoSign(tx.value);
    hide Hex2Addr, Hex2Bytes, DecimalValue, Decimal, HexEncode;
  }

  // --------------------------------------------------------------------- reading in chunks

  /** How far a source has read, and whether it has been closed. */
  datatype Cursor = Cursor(pos: nat, done: bool)

  /** The transactions of a stretch of lines; None when one does not parse. */
  function Decoded(lines: seq<TraceLine>): Option<seq<ReadTx>> {
    if lines == [] then Some([]) else
    match (Decoded(lines[..|lines| - 1]), Line2Tx(lines[|lines| - 1]))
    case (Some(txs), Some(tx)) => Some(txs + [tx])
    case _ => None
  }

  function Min(a: int, b: int): int { if a < b then a else b }

  /** One read of up to size transactions: what it returns, None being an error, and where it leaves the source. */
  function Chunk(lines: seq<TraceLine>, c: Cursor, size: nat): (Option<seq<ReadTx>>, Cursor)
    requires c.pos <= |lines|
  {
    if c.done then (Some([]), c) else
    var k := Min(size, |lines| - c.pos);
    match Decoded(lines[c.pos..c.pos + k])
    case None => (None, Cursor(c.pos + FirstBad(lines[c.pos..]) + 1, true))
    case Some(txs) => (Some(txs), Cursor(c.pos + k, k < size))
  }

  /** The position of the first line that does not parse. */
  function FirstBad(lines: seq<TraceLine>): (k: nat)
    ensures k <= |lines|
  {
    if lines == [] || Line2Tx(lines[0]).None? then 0 else 1 + FirstBad(lines[1..])
  }

  class TraceSourceJSONL {
    const lines: seq<TraceLine>
    var pos: nat
    var done: bool

    constructor (lines: seq<TraceLine>)
      ensures this.lines == lines && Valid() && View() == Cursor(0, false)
    {
      this.lines, pos, done := lines, 0, false;
    }

    ghost predicate Valid()
      reads this
    {
      pos <= |lines|
    }

    ghost function View(): Cursor
      reads this
    {
      Cursor(pos, done)
    }

    method ReadTxs(size: nat) returns (r: Option<seq<ReadTx>>)
      requires Valid()
      modifies this
      ensures Valid() && (r, View()) == Chunk(lines, old(View()), size)
    {
      if done { return Some([]); }
      var ret: seq<ReadTx> := [];
      ghost var start: nat := pos;
      NothingRead(lines, start);
      hide ReadSoFar, Chunk;
      while |ret| < size
        invariant |ret| <= size && !done && pos <= |lines| && ReadSoFar(lines, start, pos, ret)
      {
        if pos == |lines| {
          ChunkRead(lines, start, pos, ret, size);
          done := true;
          return Some(ret);
        }
        var tx := Line2Tx(lines[pos]);
        NextLine(lines, start, pos, ret, size);
        if tx.None? {
          pos, done := pos + 1, true;
          return None;
        }
        ret := ret + [tx.value];
        pos := pos + 1;
      }
      ChunkRead(lines, start, pos, ret, size);
      return Some(ret);
    }
  }

  ghost predicate ReadSoFar(lines: seq<TraceLine>, start: nat, pos: nat, ret: seq<ReadTx>) {
    && start <= pos == start + |ret| <= |lines|
    && Decoded(lines[start..pos]) == Some(ret)
    && FirstBad(lines[start..]) == |ret| + FirstBad(lines[pos..])
  }

  lemma NothingRead(lines: seq<TraceLine>, start: nat)
    requires start <= |lines|
    ensures ReadSoFar(lines, start, start, [])
  {
    hide Line2Tx;
    assert lines[start..start] == [];
  }

  lemma ChunkRead(lines: seq<TraceLine>, start: nat, pos: nat, ret: seq<ReadTx>, size: nat)
    requires ReadSoFar(lines, start, pos, ret) && |ret| <= size && (|ret| == size || pos == |lines|)
    ensures Chunk(lines, Cursor(start, false), size) == (Some(ret), Cursor(pos, |ret| < size))
  {
    hide Line2Tx;
  }

  lemma NextLine(lines: seq<TraceLine>, start: nat, pos: nat, ret: seq<ReadTx>, size: nat)
    requires ReadSoFar(lines, start, pos, ret) && pos < |lines| && |ret| < size
    ensures var tx := Line2Tx(lines[pos]);
            && (tx.Some? ==> ReadSoFar(lines, start, pos + 1, ret + [tx.value]))
            && (tx.None? ==> Chunk(lines, Cursor(start, false), size) == (None, Cursor(pos + 1, true)))
  {
    hide Line2Tx;
    assert lines[start..pos + 1][..pos - start] == lines[start..pos];
    assert lines[pos..][1..] == lines[pos + 1..] && lines[pos..][0] == lines[pos];
    if Line2Tx(lines[pos]).None? {
      BadStretch(lines[start..start + Min(size, |lines| - start)], pos - start);
    }
  }

  lemma {:induction false} BadStretch(lines: seq<TraceLine>, k: nat)
    requires k < |lines| && Line2Tx(lines[k]).None?
    ensures Decoded(lines).None?
  {
    hide Line2Tx;
    if k < |lines| - 1 { BadStretch(lines[..|lines| - 1], k); }
  }

  /** All transactions that reads of the given sizes return, one read after the other. */
  function ReadAll(lines: seq<TraceLine>, c: Cursor, sizes: seq<nat>): Option<seq<ReadTx>>
    requires c.pos <= |lines|
    decreases |sizes|
  {
    if sizes == [] then Some([]) else
    var (txs, c') := Chunk(lines, c, sizes[0]);
    if txs.None? then None else
    match ReadAll(lines, c', sizes[1..])
    case None => None
    case Some(rest) => Some(txs.value + rest)
  }

  function Total(sizes: seq<nat>): nat { if sizes == [] then 0 else sizes[0] + Total(sizes[1..]) }

  function Reader(): PlanTx -> ReadTx { (tx: PlanTx) => AsRead(tx) }

  lemma {:induction false} PlanDecodes(txs: seq<PlanTx>, hash: PlanTx -> seq<byte>)
    ensures Decoded(Mapped(txs, Printer(hash))) == Some(Mapped(txs, Reader()))
  {
    if txs == [] {
      hide Line2Tx, Printed;
    } else {
      var most, last := txs[..|txs| - 1], txs[|txs| - 1];
      assert txs == most + [last];
      hide *;
      PlanDecodes(most, hash);
      MappedSnoc(most, last, Printer(hash));
      MappedSnoc(most, last, Reader());
      PrinterThenReader(last, hash);
      DecodedOneMore(Mapped(most, Printer(hash)), Printer(hash)(last));
    }
  }

  lemma PrinterThenReader(tx: PlanTx, hash: PlanTx -> seq<byte>)
    ensures Line2Tx(Printer(hash)(tx)) == Some(Reader()(tx))
  {
    LineRoundTrip(tx, hash);
    hide Line2Tx, Printed, AsRead;
  }

  lemma DecodedOneMore(lines: seq<TraceLine>, line: TraceLine)
    requires Decoded(lines).Some? && Line2Tx(line).Some?
    ensures Decoded(lines + [line]) == Some(Decoded(lines).value + [Line2Tx(line).value])
  {
    hide Line2Tx;
    assert (lines + [line])[..|lines|] == lines;
  }

  /** One read of a written plan. */
  lemma PlanChunk(txs: seq<PlanTx>, hash: PlanTx -> seq<byte>, pos: nat, size: nat, k: nat)
    requires pos <= |txs| && k == Min(size, |txs| - pos)
    ensures Chunk(Mapped(txs, Printer(hash)), Cursor(pos, false), size) == (Some(Mapped(txs[pos..pos + k], Reader())), Cursor(pos + k, k < size))
  {
    var lines := Mapped(txs, Printer(hash));
    assert pos + k <= |txs|;
    hide *;
    PlanDecodes(txs[pos..pos + k], hash);
    MappedSlice(txs, Printer(hash), pos, pos + k);
    ChunkOf(lines, pos, size, k, Mapped(txs[pos..pos + k], Reader()));
  }

  lemma ChunkOf(lines: seq<TraceLine>, pos: nat, size: nat, k: nat, got: seq<ReadTx>)
    requires pos <= |lines| && k == Min(size, |lines| - pos) && pos + k <= |lines| && Decoded(lines[pos..pos + k]) == Some(got)
    ensures Chunk(lines, Cursor(pos, false), size) == (Some(got), Cursor(pos + k, k < size))
  {
    hide Decoded, FirstBad;
  }

  /**
   * A plan written and read back in chunks of any sizes yields its transactions in order, with the same sender,
   * recipient, value, nonce and data: as many as were asked for, up to the whole plan.
   */
  lemma {:induction false} PlanReadsBack(txs: seq<PlanTx>, hash: PlanTx -> seq<byte>, c: Cursor, sizes: seq<nat>)
    requires c.pos <= |txs| && (c.done ==> c.pos == |txs|)
    ensures ReadAll(Mapped(txs, Printer(hash)), c, sizes) ==
            Some(Mapped(txs[c.pos..c.pos + Min(Total(sizes), |txs| - c.pos)], Reader()))
    decreases |sizes|
  {
    hide Decoded, Printer, Reader, FirstBad;
    if sizes == [] {
      assert txs[c.pos..c.pos] == [];
    } else {
      var lines := Mapped(txs, Printer(hash));
      PlanChunk(txs, hash, c.pos, sizes[0], Min(sizes[0], |txs| - c.pos));
      var c' := Chunk(lines, c, sizes[0]).1;
      PlanReadsBack(txs, hash, c', sizes[1..]);
      MappedJoin(txs, Reader(), c.pos, c'.pos, c'.pos + Min(Total(sizes[1..]), |txs| - c'.pos));
      if c.done { assert txs[c.pos..c.pos] == []; }
    }
  }
}
