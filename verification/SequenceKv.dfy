/** The backend's KV memory, seen as the tokens resident in each sequence.

The backend is position checking: a batch whose first position is not the
resident length of its sequence is refused and changes nothing. A refused or
failed batch may leave a prefix of its tokens behind.
*/
module SequenceKv {
  import opened Common

  type Token = int
  type Kv = map<int, seq<Token>>

  /** Outcome of one backend batch: done, or failed after some tokens. */
  datatype Outcome = Done | Failed(residue: nat)

  function Clamp(x: int, lo: int, hi: int): int
    requires lo <= hi
  {
    Min(Max(x, lo), hi)
  }

  function Resident(kv: Kv, q: int): seq<Token> {
    if q in kv then kv[q] else []
  }

  function FreeSequence(kv: Kv, q: int): Kv { kv[q := []] }

  /** Keep positions [0, n) of q; when the memory cannot trim, q is cleared. */
  function Truncate(kv: Kv, q: int, n: int, trims: bool): (r: (Kv, bool)) {
    if n <= 0 then (FreeSequence(kv, q), true)
    else if trims then (kv[q := Resident(kv, q)[..Min(n, |Resident(kv, q)|)]], true)
    else (FreeSequence(kv, q), false)
  }

  /** Clear dst, copy the whole of src, then trim dst to [0, n). */
  function CopyPrefix(kv: Kv, src: int, dst: int, n: int, trims: bool): (r: (Kv, bool)) {
    var cleared := FreeSequence(kv, dst);
    if n <= 0 then (cleared, true)
    else Truncate(cleared[dst := Resident(cleared, src)], dst, n, trims)
  }

  function Submit(kv: Kv, q: int, pos: int, tokens: seq<Token>, o: Outcome): (r: (Kv, bool)) {
    if pos != |Resident(kv, q)| then (kv, false)
    else match o
      case Done => (kv[q := Resident(kv, q) + tokens], true)
      case Failed(k) => (kv[q := Resident(kv, q) + tokens[..Min(k, |tokens|)]], false)
  }

  /** Whether a decoder checks positions or writes over what is there. */
  datatype Decoder = Checking | Overwriting

  /** Submit on either decoder; an overwriting one ends the sequence with the batch. */
  function Write(kv: Kv, q: int, pos: nat, tokens: seq<Token>, decoder: Decoder, o: Outcome): (r: (Kv, bool)) {
    if decoder.Checking? || pos > |Resident(kv, q)| then Submit(kv, q, pos, tokens, o)
    else Submit(kv[q := Resident(kv, q)[..pos]], q, pos, tokens, o)
  }
}
