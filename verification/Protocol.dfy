/** Messages, identifiers and status flags shared by gateway and peers
    (proto/job/job.proto, proto/job/job.pb.go). */
module Protocol {

  datatype Option<+T> = None | Some(value: T)

  type PeerID = string

  /** A node's position within one SMC network subset. */
  type ChannelID = int

  /** CmdResult_Status is an int32 whose bits 5, 6 and 7 carry the error classes. */
  type Flags = bv32

  const SUCCESS: Flags := 0
  const SUCCESS_DONE: Flags := 1
  const ERR_CLASS_NORM: Flags := 32
  const DENIED: Flags := 34
  const ERR_CLASS_FAULT: Flags := 64
  const ABORTED: Flags := 65
  const ERR_CLASS_COMM: Flags := 128
  const STREAM_ERR: Flags := 129
  const SEVERE_ERROR_CLASSES: Flags := 192
  const ALL_ERROR_CLASSES: Flags := 224

  /** One row of the table a PREPARE command carries. */
  datatype TableEntry = TableEntry(authID: PeerID, smcPeerID: ChannelID, port: int)

  datatype Payload =
    | Prepare(participants: seq<TableEntry>)
    | Link
    | Session(parallelBatchOps: int)
    | Debug(ping: int, morePhases: bool)

  datatype SMCCmd = SMCCmd(sessionID: string, smcPeerID: ChannelID, payload: Payload)

  /** The numeric result of a peer is absent or one number. */
  datatype CmdResult = CmdResult(status: Flags, result: Option<real>)

  /** The error classes a peer reports; informational bits are masked out. */
  function ErrorClass(status: Flags): Flags {
    status & ALL_ERROR_CLASSES
  }

  predicate HasComm(flags: Flags) {
    flags & ERR_CLASS_COMM != 0
  }

  /** Every bit of "raised" is among the bits of "handled". */
  predicate Includes(handled: Flags, raised: Flags) {
    handled & raised == raised
  }

  /** The accumulation "flags |= more". */
  function Or(flags: Flags, more: Flags): Flags {
    flags | more
  }

  /** The classes of the statuses in use: each error has one, success has none, and the two masks
      are made of the classes they are named for. */
  lemma StatusClasses()
    ensures ErrorClass(SUCCESS) == 0 && ErrorClass(SUCCESS_DONE) == 0 && SUCCESS != SUCCESS_DONE
    ensures ErrorClass(DENIED) == ERR_CLASS_NORM && ErrorClass(ABORTED) == ERR_CLASS_FAULT
    ensures ErrorClass(STREAM_ERR) == ERR_CLASS_COMM && HasComm(STREAM_ERR) && !HasComm(DENIED) && !HasComm(ABORTED)
    ensures SEVERE_ERROR_CLASSES == ERR_CLASS_FAULT | ERR_CLASS_COMM
    ensures ALL_ERROR_CLASSES == ERR_CLASS_NORM | SEVERE_ERROR_CLASSES
  {
    assert 0 & 224 == 0 as bv32 && 1 & 224 == 0 as bv32 && 34 & 224 == 32 as bv32 && 65 & 224 == 64 as bv32;
    assert 129 & 224 == 128 as bv32 && 129 & 128 == 128 as bv32 && 34 & 128 == 0 as bv32 && 65 & 128 == 0 as bv32;
    assert 64 | 128 == 192 as bv32 && 32 | 192 == 224 as bv32;
  }

  lemma OrBasics(flags: Flags)
    ensures Or(0, flags) == flags && Or(flags, flags) == flags
  {
  }

  lemma UnionAbsorbs(a: Flags, b: Flags)
    ensures Includes(Or(a, b), a) && Includes(Or(a, b), b)
  {
  }

  lemma AndDistributes(h: Flags, a: Flags, b: Flags)
    ensures h & (a | b) == (h & a) | (h & b)
  {
  }

  lemma AndAssociates(a: Flags, b: Flags, c: Flags)
    ensures a & (b & c) == (a & b) & c
  {
  }

  lemma IncludesPart(handled: Flags, whole: Flags, part: Flags)
    requires Includes(handled, whole) && Includes(whole, part)
    ensures Includes(handled, part)
  {
    AndAssociates(handled, whole, part);
  }

  lemma IncludesBoth(handled: Flags, a: Flags, b: Flags)
    requires Includes(handled, a) && Includes(handled, b)
    ensures Includes(handled, a | b)
  {
    calc {
      handled & (a | b);
      { AndDistributes(handled, a, b); }
      (handled & a) | (handled & b);
      a | b;
    }
  }

  lemma IncludesEach(handled: Flags, a: Flags, b: Flags)
    requires Includes(handled, Or(a, b))
    ensures Includes(handled, a) && Includes(handled, b)
  {
    hide *;
    UnionAbsorbs(a, b);
    IncludesPart(handled, Or(a, b), a);
    IncludesPart(handled, Or(a, b), b);
  }

  /** Accumulating flags by "or" and comparing once decides like comparing each flag alone. */
  lemma IncludesUnion(handled: Flags, a: Flags, b: Flags)
    ensures Includes(handled, Or(a, b)) <==> Includes(handled, a) && Includes(handled, b)
  {
    hide Includes;
    if Includes(handled, Or(a, b)) {
      IncludesEach(handled, a, b);
    } else if Includes(handled, a) && Includes(handled, b) {
      IncludesBoth(handled, a, b);
    }
  }

  lemma IncludesNothing(raised: Flags)
    ensures Includes(0, raised) <==> raised == 0
  {
  }
}
