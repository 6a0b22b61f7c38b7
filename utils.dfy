/**
  Model of lib/utils.ts: `formatDuration` (seconds rendered as `h:mm:ss` or `m:ss`)
  and `validateVideoFile` (MIME prefix check, then a size ceiling). `formatFileSize`
  is an opaque producer of a size label and is passed in as a function.
 */
module Utils {
  import opened Wrappers
  import opened TextOps

  /** The part of a browser `File` the wizard looks at. */
  datatype File = File(name: string, mimeType: string, size: nat)

  /** `{valid: boolean; error?: string}` */
  datatype Validation = Validation(valid: bool, error: Option<string>)

  /** Default ceiling of `validateVideoFile`: 5 GiB. */
  const DEFAULT_MAX_SIZE_BYTES: nat := 5 * 1024 * 1024 * 1024

  const VIDEO_MIME_PREFIX: string := "video/"
  const NOT_VIDEO_ERROR: string := "File phải là video"

  /** The size error: a fixed lead-in followed by the label of the ceiling. */
  function TooLargeError(sizeLabel: string): (e: string)
    ensures |e| > |sizeLabel|
    ensures e[|e| - |sizeLabel|..] == sizeLabel
  {
    var e := "File vượt quá " + sizeLabel;
    assert e[|e| - |sizeLabel|..] == sizeLabel;
    e
  }

  /**
    The lead-in does not depend on the label, so different labels give different
    messages: the size error names its ceiling.
   */
  lemma TooLargeErrorLeadIsFixed(a: string, b: string)
    ensures var ea, eb := TooLargeError(a), TooLargeError(b);
      ea[..|ea| - |a|] == eb[..|eb| - |b|]
    ensures TooLargeError(a) == TooLargeError(b) ==> a == b
  {
    var ea, eb := TooLargeError(a), TooLargeError(b);
    assert ea[..|ea| - |a|] == "File vượt quá " == eb[..|eb| - |b|];
  }

  // ---------------------------------------------------------------- formatDuration

  /** The `hrs`, `mins`, `secs` that `formatDuration` computes. */
  datatype Clock = Clock(hrs: nat, mins: nat, secs: nat)

  /** A split of natural seconds: minutes and seconds below 60, nothing lost. */
  function SplitSeconds(seconds: nat): (c: Clock)
    ensures c.mins < 60 && c.secs < 60
    ensures c.hrs * 3600 + c.mins * 60 + c.secs == seconds
    ensures c.hrs > 0 <==> seconds >= 3600
  {
    var h, rest := seconds / 3600, seconds % 3600;
    assert seconds == (h * 60) * 60 + rest;
    assert seconds % 60 == rest % 60;
    Clock(h, rest / 60, seconds % 60)
  }

  /** A number below 60 as two decimal digits, tens first. */
  function TwoDigits(n: nat): (r: string)
    requires n < 60
    ensures |r| == 2 && AllDigits(r) && DigitsValue(r) == n
  {
    var r := [DigitChar(n / 10), DigitChar(n % 10)];
    assert r[..1] == [DigitChar(n / 10)] && r[..1][..0] == [];
    assert DigitsValue(r[..1]) == n / 10;
    r
  }

  /** `n.toString().padStart(2, "0")` is `TwoDigits(n)` for `n` below 60. */
  lemma TwoDigitsIsPadStart(n: nat)
    requires n < 60
    ensures PadStart(NatToString(n), 2, '0') == TwoDigits(n)
  {
    var s := NatToString(n);
    PadZerosKeepsValue(s, 2);
    var p := PadStart(s, 2, '0');
    DigitsDetermine(p, TwoDigits(n));
  }

  /** The `h:mm:ss` form of `formatDuration`. */
  function RenderHours(hrs: nat, mins: nat, secs: nat): string
    requires mins < 60 && secs < 60
  {
    NatToString(hrs) + ":" + TwoDigits(mins) + ":" + TwoDigits(secs)
  }

  /** The `m:ss` form of `formatDuration`. */
  function RenderMinutes(mins: nat, secs: nat): string
    requires secs < 60
  {
    NatToString(mins) + ":" + TwoDigits(secs)
  }

  /** `formatDuration(seconds)` for a natural number of seconds. */
  function FormatDuration(seconds: nat): string {
    var c := SplitSeconds(seconds);
    if c.hrs > 0 then RenderHours(c.hrs, c.mins, c.secs) else RenderMinutes(c.mins, c.secs)
  }

  /**
    `r` has the shape of `formatDuration`'s output for the clock `c`: `h:mm:ss` when
    the hour count is positive, otherwise `m:ss`. The seconds, and in the hour form the
    minutes, are exactly two digits (zero-padded); the leading field is an unpadded
    natural.
   */
  ghost predicate ClockShaped(r: string, c: Clock) {
    |r| >= 4 && r[|r| - 3] == ':'
    && AllDigits(r[|r| - 2..]) && DigitsValue(r[|r| - 2..]) == c.secs
    && (c.hrs == 0 ==>
          AllDigits(r[..|r| - 3]) && DigitsValue(r[..|r| - 3]) == c.mins
          && (r[0] == '0' ==> |r| == 4))
    && (c.hrs > 0 ==>
          |r| >= 7 && r[|r| - 6] == ':'
          && AllDigits(r[|r| - 5..|r| - 3]) && DigitsValue(r[|r| - 5..|r| - 3]) == c.mins
          && AllDigits(r[..|r| - 6]) && DigitsValue(r[..|r| - 6]) == c.hrs
          && r[0] != '0')
  }

  /** `h:m:s` from an unpadded hour field and two two-digit fields has the hour shape. */
  lemma JoinThreeShaped(h: string, m: string, s: string, c: Clock)
    requires c.hrs > 0 && |h| >= 1 && AllDigits(h) && DigitsValue(h) == c.hrs && h[0] != '0'
    requires |m| == 2 && AllDigits(m) && DigitsValue(m) == c.mins
    requires |s| == 2 && AllDigits(s) && DigitsValue(s) == c.secs
    ensures ClockShaped(h + ":" + m + ":" + s, c)
  {
    var hm := h + ":" + m;
    var r := hm + ":" + s;
    assert r[..|hm|] == hm && r[|hm|] == ':' && r[|hm| + 1..] == s;
    assert hm[..|h|] == h && hm[|h|] == ':' && hm[|h| + 1..] == m;
    assert r[..|r| - 6] == r[..|hm|][..|h|] == h;
    assert r[|r| - 5..|r| - 3] == r[..|hm|][|h| + 1..] == m;
    assert r[0] == h[0];
  }

  /** `m:s` from an unpadded minute field and a two-digit field has the minute shape. */
  lemma JoinTwoShaped(m: string, s: string, c: Clock)
    requires c.hrs == 0 && |m| >= 1 && AllDigits(m) && DigitsValue(m) == c.mins && (m[0] == '0' ==> |m| == 1)
    requires |s| == 2 && AllDigits(s) && DigitsValue(s) == c.secs
    ensures ClockShaped(m + ":" + s, c)
  {
    var r := m + ":" + s;
    assert r[..|m|] == m && r[|m|] == ':' && r[|m| + 1..] == s;
    assert r[0] == m[0];
  }

  /** `formatDuration`'s output has the shape of its split: see `ClockShaped`. */
  lemma FormatDurationForm(seconds: nat)
    ensures ClockShaped(FormatDuration(seconds), SplitSeconds(seconds))
  {
    var c := SplitSeconds(seconds);
    if c.hrs > 0 {
      JoinThreeShaped(NatToString(c.hrs), TwoDigits(c.mins), TwoDigits(c.secs), c);
    } else {
      JoinTwoShaped(NatToString(c.mins), TwoDigits(c.secs), c);
    }
  }

  /** Splits `head:dd` into `head` (non-empty) and the value of the two digits `dd`, when below 60. */
  function ParseTail(r: string): Option<(string, nat)> {
    if |r| >= 4 && r[|r| - 3] == ':' && AllDigits(r[|r| - 2..]) && DigitsValue(r[|r| - 2..]) < 60 then
      Some((r[..|r| - 3], DigitsValue(r[|r| - 2..])))
    else
      None
  }

  /** Reads back a clock string of the form `m:ss` or `h:mm:ss`. */
  function ParseClock(r: string): Option<nat> {
    match ParseTail(r)
    case None => None
    case Some((head, secs)) =>
      if AllDigits(head) then
        Some(DigitsValue(head) * 60 + secs)
      else
        match ParseTail(head)
        case None => None
        case Some((hours, mins)) =>
          if AllDigits(hours) then Some(DigitsValue(hours) * 3600 + mins * 60 + secs) else None
  }

  /** `ParseClock` on a string of the `m:ss` shape. */
  lemma ParseMinutesShape(r: string)
    requires |r| >= 4 && r[|r| - 3] == ':'
    requires AllDigits(r[|r| - 2..]) && DigitsValue(r[|r| - 2..]) < 60 && AllDigits(r[..|r| - 3])
    ensures ParseClock(r) == Some(DigitsValue(r[..|r| - 3]) * 60 + DigitsValue(r[|r| - 2..]))
  {
  }

  /** `ParseClock` on a string of the `h:mm:ss` shape. */
  lemma ParseHoursShape(r: string)
    requires |r| >= 7 && r[|r| - 3] == ':' && r[|r| - 6] == ':'
    requires AllDigits(r[|r| - 2..]) && DigitsValue(r[|r| - 2..]) < 60
    requires AllDigits(r[|r| - 5..|r| - 3]) && DigitsValue(r[|r| - 5..|r| - 3]) < 60
    requires AllDigits(r[..|r| - 6])
    ensures ParseClock(r) == Some(DigitsValue(r[..|r| - 6]) * 3600
                                  + DigitsValue(r[|r| - 5..|r| - 3]) * 60 + DigitsValue(r[|r| - 2..]))
  {
    var head := r[..|r| - 3];
    assert head[|head| - 3] == ':';
    assert head[|head| - 2..] == r[|r| - 5..|r| - 3];
    assert head[..|head| - 3] == r[..|r| - 6];
    assert ParseTail(head) == Some((r[..|r| - 6], DigitsValue(r[|r| - 5..|r| - 3])));
  }

  /** A string shaped like a clock reads back as the clock's seconds. */
  lemma ParseShapedClock(r: string, c: Clock)
    requires ClockShaped(r, c) && c.secs < 60 && c.mins < 60
    ensures ParseClock(r) == Some(c.hrs * 3600 + c.mins * 60 + c.secs)
  {
    if c.hrs > 0 {
      ParseHoursShape(r);
    } else {
      ParseMinutesShape(r);
    }
  }

  /** `formatDuration` loses nothing: its output reads back as the input. */
  lemma FormatDurationRoundTrip(seconds: nat)
    ensures ParseClock(FormatDuration(seconds)) == Some(seconds)
  {
    var r, c := FormatDuration(seconds), SplitSeconds(seconds);
    FormatDurationForm(seconds);
    ParseShapedClock(r, c);
  }

  /** The hour form (a second colon, three characters before the last one) is used exactly from one hour on. */
  lemma HourFormFromOneHour(seconds: nat)
    ensures var r := FormatDuration(seconds); seconds >= 3600 <==> (|r| >= 7 && r[|r| - 6] == ':')
  {
    FormatDurationForm(seconds);
  }

  // ---------------------------------------------------------------- validateVideoFile

  /**
    `validateVideoFile(file, maxSizeBytes)`: the type check comes first, then the
    ceiling; a file of exactly `maxSizeBytes` bytes passes. A valid result carries no
    error; an invalid one always carries a non-empty message.
   */
  function ValidateVideoFile(file: File, maxSizeBytes: int := DEFAULT_MAX_SIZE_BYTES, formatFileSize: int -> string): (v: Validation)
    ensures v.valid <==> StartsWith(file.mimeType, VIDEO_MIME_PREFIX) && file.size <= maxSizeBytes
    ensures v.valid <==> v.error == None
    ensures v.error.Some? ==> v.error.value != ""
    ensures !StartsWith(file.mimeType, VIDEO_MIME_PREFIX) ==> v.error == Some(NOT_VIDEO_ERROR)
    ensures StartsWith(file.mimeType, VIDEO_MIME_PREFIX) && file.size > maxSizeBytes ==>
      v.error == Some(TooLargeError(formatFileSize(maxSizeBytes)))
  {
    if !StartsWith(file.mimeType, VIDEO_MIME_PREFIX) then
      Validation(false, Some(NOT_VIDEO_ERROR))
    else if file.size > maxSizeBytes then
      Validation(false, Some(TooLargeError(formatFileSize(maxSizeBytes))))
    else
      Validation(true, None)
  }

  /** Raising the ceiling never turns a valid file into an invalid one. */
  lemma ValidationMonotoneInCeiling(file: File, lo: int, hi: int, formatFileSize: int -> string)
    requires lo <= hi
    ensures ValidateVideoFile(file, lo, formatFileSize).valid ==> ValidateVideoFile(file, hi, formatFileSize).valid
  {
  }

  /** Only a type error is reported for a non-video, whatever its size. */
  lemma TypeCheckBeforeSize(file: File, maxSizeBytes: int, formatFileSize: int -> string)
    requires !StartsWith(file.mimeType, VIDEO_MIME_PREFIX)
    ensures ValidateVideoFile(file.(size := 0), maxSizeBytes, formatFileSize).error
         == ValidateVideoFile(file, maxSizeBytes, formatFileSize).error
  {
  }
}
