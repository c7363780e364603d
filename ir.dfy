/**
 * The instruction stream of a method body: an ordered list of method-item
 * entries (real instructions and structural markers) that is edited in place.
 * Positions are indices into the list; an edit shifts the indices of the
 * entries after it, which the callers account for explicitly.
 */
module IR {

  /** The instruction opcodes this model tells apart. */
  datatype Opcode =
    | Goto(target: nat)       // the three encodings of the unconditional jump, each naming its target label
    | Goto16(target: nat)
    | Goto32(target: nat)
    | IfTest(target: nat)     // a conditional branch
    | Switch(targets: seq<nat>)
    | Return
    | Throw
    | Other(code: nat)  // every other opcode

  /** One method-item entry: a real instruction or a structural marker. */
  datatype Entry =
    | Insn(op: Opcode)  // a real instruction
    | Target(id: nat)  // the marker a branch jumps to, carrying the label id that branches name
    | TryMarker         // start or end of a try region
    | CatchMarker       // start of an exception handler
    | Position          // source-position marker
    | Debug             // debug-info marker
    | Fallthrough       // explicit fallthrough marker

  /** A method body: its entries, edited in place by the optimizer. */
  class IRCode {
    var entries: seq<Entry>

    constructor (entries: seq<Entry>)
      ensures this.entries == entries
    {
      this.entries := entries;
    }

    /** Removes the entry at `pos`; returns the position of the entry that now follows it. */
    method Erase(pos: nat) returns (next: nat)
      requires pos < |entries|
      modifies this
      ensures entries == old(entries[..pos]) + old(entries[pos + 1..])
      ensures next == pos
    {
      entries := entries[..pos] + entries[pos + 1..];
      next := pos;
    }

    /** Inserts `e` right after the entry at `pos`; returns the position of `e`. */
    method InsertAfter(pos: nat, e: Entry) returns (inserted: nat)
      requires pos < |entries|
      modifies this
      ensures entries == old(entries[..pos + 1]) + [e] + old(entries[pos + 1..])
      ensures inserted == pos + 1 && inserted < |entries| && entries[inserted] == e
    {
      entries := entries[..pos + 1] + [e] + entries[pos + 1..];
      inserted := pos + 1;
    }
  }

  /** A method declaration; `code` is null for methods without a body (abstract, native). */
  class DexMethod {
    const code: IRCode?

    constructor (code: IRCode?)
      ensures this.code == code
    {
      this.code := code;
    }
  }
}
