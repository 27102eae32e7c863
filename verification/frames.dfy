/**
 * The text handling of DroneCamera.process_frame (client.py:44-54): the
 * base64 frame string is taken from the message and padded with '=' to a
 * multiple of four characters before it is handed to the image decoder.
 */
module Frames {
  import opened Wrappers
  import opened Json

  /** Python's `'=' * n`. */
  function Fill(n: nat): (r: string)
    ensures |r| == n
    ensures forall i | 0 <= i < n :: r[i] == '='
  {
    if n == 0 then "" else Fill(n - 1) + "="
  }

  /** `r` extends `data` by fewer than four '=' characters to a length that is a multiple of four. */
  predicate IsPadding(data: string, r: string) {
    && |data| <= |r| < |data| + 4
    && r[..|data|] == data
    && (forall i | |data| <= i < |r| :: r[i] == '=')
    && |r| % 4 == 0
  }

  /** The padding step of client.py:51-54. */
  function Pad(data: string): (r: string)
    ensures IsPadding(data, r)
    ensures |data| % 4 == 0 ==> r == data
  {
    var missing := |data| % 4;
    if missing != 0 then data + Fill(4 - missing) else data
  }

  /** The padding is unique: any string that pads `data` is `Pad(data)`. */
  lemma PadUnique(data: string, r: string)
    requires IsPadding(data, r)
    ensures r == Pad(data)
  {
  }

  /** Padding an already padded string changes nothing. */
  lemma PadIdempotent(data: string)
    ensures Pad(Pad(data)) == Pad(data)
  {
  }

  /** The frame string process_frame hands to the decoder: `None` when the
      `data` field is missing or empty (client.py:47-49), and also when the
      frame is not an object or its `data` is not a string, since `.get`, the
      length or the concatenation then raises inside the method's try block
      (client.py:85-87). */
  function FrameText(frame: Value): (r: Option<string>)
    ensures r.Some? <==> frame.Object? && "data" in frame.fields && frame.fields["data"].Text? && frame.fields["data"].s != ""
    ensures r.Some? ==> IsPadding(frame.fields["data"].s, r.value)
  {
    match frame
    case Object(fields) =>
      (match Get(fields, "data", Text(""))
       case Text(s) => if s == "" then None else Some(Pad(s))
       case _ => None)
    case _ => None
  }
}
