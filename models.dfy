/** The configuration and state records of the device monitor, and the two
    .NET string tests the monitor applies to them.  A C# reference that may be
    null (`string?`, or a `string` filled in by configuration binding) is an
    `Option<string>`. */
module Models {

  datatype Option<+T> = None | Some(value: T)

  /** A 32-bit signed C# `int`. */
  newtype int32 = x: int | -0x8000_0000 <= x < 0x8000_0000

  /** One entry of the configured device roster. */
  datatype DeviceConfig = DeviceConfig(
    name: Option<string>,
    ipAddress: Option<string>,
    isCritical: bool,
    server: Option<string>,
    audioBitrate: int32,
    videoBitrate: int32,
    resolution: Option<string>,
    fps: int32,
    codec: Option<string>,
    username: Option<string>,
    password: Option<string>)

  /** The state a device reports when it is polled. */
  datatype DeviceState = DeviceState(status: string, bitrate: int32, bufferPct: int32)

  /** `string.IsNullOrEmpty`. */
  predicate IsNullOrEmpty(s: Option<string>) {
    s.None? || s.value == ""
  }

  /** `char.IsWhiteSpace`: the Unicode space separators, the line and
      paragraph separators, and the control characters U+0009 to U+000D and
      U+0085. */
  predicate IsWhiteSpace(c: char) {
    || ('\t' <= c <= '\r')
    || c == ' '
    || c == '\U{85}'
    || c == '\U{A0}'
    || c == '\U{1680}'
    || ('\U{2000}' <= c <= '\U{200A}')
    || c == '\U{2028}'
    || c == '\U{2029}'
    || c == '\U{202F}'
    || c == '\U{205F}'
    || c == '\U{3000}'
  }

  /** `string.IsNullOrWhiteSpace`: null, or made of white space only (the
      empty string included). */
  predicate IsNullOrWhiteSpace(s: Option<string>): (r: bool)
    ensures IsNullOrEmpty(s) ==> r
    ensures r <==> s.None? || forall i | 0 <= i < |s.value| :: IsWhiteSpace(s.value[i])
  {
    s.None? || AllWhiteSpace(s.value)
  }

  predicate AllWhiteSpace(s: string)
    ensures AllWhiteSpace(s) <==> forall i | 0 <= i < |s| :: IsWhiteSpace(s[i])
  {
    s == [] || (IsWhiteSpace(s[0]) && AllWhiteSpace(s[1..]))
  }

  /** The inclusion that `IsNullOrWhiteSpace` states is strict: a blank
      string is rejected by the white-space test and accepted by the
      null-or-empty test. */
  lemma WhiteSpaceTestIsWider()
    ensures IsNullOrWhiteSpace(Some(" ")) && !IsNullOrEmpty(Some(" "))
  {
    assert AllWhiteSpace(" "[1..]);
  }
}
