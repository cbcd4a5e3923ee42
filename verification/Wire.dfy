/** Fixed-width big-endian fields, as the NBD messages are made of. */
module Wire {
  import opened Common

  newtype byte = x: int | 0 <= x < 256

  function Power(width: nat): nat { if width == 0 then 1 else 256 * Power(width - 1) }

  /** The last `width` bytes of the number, most significant first. */
  function BigEndian(n: nat, width: nat): (bytes: seq<byte>)
    ensures |bytes| == width
    decreases width
  {
    if width == 0 then [] else BigEndian(n / 256, width - 1) + [(n % 256) as byte]
  }

  function Number(bytes: seq<byte>): nat {
    if bytes == [] then 0 else 256 * Number(bytes[..|bytes| - 1]) + bytes[|bytes| - 1] as int
  }

  lemma {:induction false} NumberReadsBack(n: nat, width: nat)
    requires n < Power(width)
    ensures Number(BigEndian(n, width)) == n
    decreases width
  {
    if width > 0 {
      var bytes := BigEndian(n, width);
      NumberReadsBack(n / 256, width - 1);
      assert bytes[..width - 1] == BigEndian(n / 256, width - 1);
    }
  }

  datatype Field = Field(value: nat, width: nat)

  /** The packer refuses a value that does not fit its field. */
  predicate Fits(fields: seq<Field>) { forall f <- fields :: f.value < Power(f.width) }

  function Packed(fields: seq<Field>): seq<byte> {
    if fields == [] then [] else BigEndian(fields[0].value, fields[0].width) + Packed(fields[1..])
  }

  function Widths(fields: seq<Field>): (ws: seq<nat>)
    ensures |ws| == |fields| && forall i :: 0 <= i < |ws| ==> ws[i] == fields[i].width
  {
    if fields == [] then [] else [fields[0].width] + Widths(fields[1..])
  }

  function Values(fields: seq<Field>): (vs: seq<nat>)
    ensures |vs| == |fields| && forall i :: 0 <= i < |vs| ==> vs[i] == fields[i].value
  {
    if fields == [] then [] else [fields[0].value] + Values(fields[1..])
  }

  /** The values of fields of these widths; nothing when the text is too short or too long. */
  function Unpacked(widths: seq<nat>, bytes: seq<byte>): Option<seq<nat>> {
    if widths == [] then (if bytes == [] then Some([]) else None)
    else if |bytes| < widths[0] then None
    else
      var rest := Unpacked(widths[1..], bytes[widths[0]..]);
      if rest.None? then None else Some([Number(bytes[..widths[0]])] + rest.value)
  }

  lemma {:induction false} UnpacksBack(fields: seq<Field>)
    requires Fits(fields)
    ensures Unpacked(Widths(fields), Packed(fields)) == Some(Values(fields))
  {
    if fields != [] {
      var head, rest := BigEndian(fields[0].value, fields[0].width), fields[1..];
      UnpacksBack(rest);
      NumberReadsBack(fields[0].value, fields[0].width);
      assert Widths(fields)[1..] == Widths(rest);
      assert Packed(fields)[..|head|] == head && Packed(fields)[|head|..] == Packed(rest);
    }
  }
}
