/**
 * The null output (output/output_null.go): accepts every message, keeps
 * nothing, and reports the bytes a framed record of it would take.
 */
module NullOutput {
  import opened Proto
  import opened Capability

  /** PluginWrite: header, payload and the 14-byte record separator; never an error. */
  function PluginWrite(msg: Message): (r: WriteResult)
    ensures r.Written? && r.err.None?
    ensures r.n == |msg.meta| + |msg.data| + 14
  {
    Written(|msg.meta| + |msg.data| + |PayloadSeparator|, None)
  }

  /** Only the lengths count: two messages of the same sizes get the same answer. */
  lemma LengthsOnly(a: Message, b: Message)
    requires |a.meta| == |b.meta| && |a.data| == |b.data|
    ensures PluginWrite(a) == PluginWrite(b)
  {
  }
}
