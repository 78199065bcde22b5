/**
 * The log formatters of src/Utils/LogFormatter.hpp: the name of a
 * VkPhysicalDeviceType, the "major.minor.patch" text of a packed API
 * version, and the '|'-separated list of the set bits of a
 * VkDebugUtilsMessageTypeFlagsEXT mask.
 */
module LogFormatting {
  import opened Common
  import opened Vk

  // ---------------------------------------------------------------------
  // VkPhysicalDeviceType
  // ---------------------------------------------------------------------

  /** A device type the switch names. */
  predicate IsKnownDeviceType(t: int)
  {
    DEVICE_TYPE_OTHER <= t <= DEVICE_TYPE_CPU
  }

  /** The switch of format(VkPhysicalDeviceType): five names, "Unknown" otherwise. */
  function DeviceTypeName(t: int): (name: string)
    ensures name != ""
  {
    if t == DEVICE_TYPE_OTHER then "Other"
    else if t == DEVICE_TYPE_INTEGRATED_GPU then "Integrated GPU"
    else if t == DEVICE_TYPE_DISCRETE_GPU then "Discrete GPU"
    else if t == DEVICE_TYPE_VIRTUAL_GPU then "Virtual GPU"
    else if t == DEVICE_TYPE_CPU then "CPU"
    else "Unknown"
  }

  /** The device type a name stands for, the reverse lookup of the switch. */
  function DeviceTypeOf(name: string): (t: Option<int>)
  {
    if name == "Other" then Some(DEVICE_TYPE_OTHER)
    else if name == "Integrated GPU" then Some(DEVICE_TYPE_INTEGRATED_GPU)
    else if name == "Discrete GPU" then Some(DEVICE_TYPE_DISCRETE_GPU)
    else if name == "Virtual GPU" then Some(DEVICE_TYPE_VIRTUAL_GPU)
    else if name == "CPU" then Some(DEVICE_TYPE_CPU)
    else None
  }

  /**
   * Every named type reads back from its name, so no two types share a
   * name, and exactly the types outside the switch print as "Unknown".
   */
  lemma DeviceTypeNameRoundTrip(t: int)
    ensures IsKnownDeviceType(t) ==> DeviceTypeOf(DeviceTypeName(t)) == Some(t)
    ensures DeviceTypeName(t) == "Unknown" <==> !IsKnownDeviceType(t)
    ensures DeviceTypeOf(DeviceTypeName(t)).None? <==> !IsKnownDeviceType(t)
  {
  }

  // ---------------------------------------------------------------------
  // Packed API versions (VK_API_VERSION_* of the Vulkan headers)
  // ---------------------------------------------------------------------

  /** VK_API_VERSION_VARIANT: v >> 29. */
  function ApiVersionVariant(v: u32): (r: nat)
    ensures r < 8
  {
    v / 0x2000_0000
  }

  /** VK_API_VERSION_MAJOR: (v >> 22) & 0x7F. */
  function ApiVersionMajor(v: u32): (r: nat)
    ensures r < 0x80
  {
    (v / 0x40_0000) % 0x80
  }

  /** VK_API_VERSION_MINOR: (v >> 12) & 0x3FF. */
  function ApiVersionMinor(v: u32): (r: nat)
    ensures r < 0x400
  {
    (v / 0x1000) % 0x400
  }

  /** VK_API_VERSION_PATCH: v & 0xFFF. */
  function ApiVersionPatch(v: u32): (r: nat)
    ensures r < 0x1000
  {
    v % 0x1000
  }

  /** VK_MAKE_API_VERSION: the fields packed as variant:3, major:7, minor:10, patch:12 bits. */
  function MakeApiVersion(variant: nat, major: nat, minor: nat, patch: nat): (v: u32)
    requires variant < 8 && major < 0x80 && minor < 0x400 && patch < 0x1000
  {
    variant * 0x2000_0000 + major * 0x40_0000 + minor * 0x1000 + patch
  }

  /** Unpacking a packed version gives back its fields. */
  lemma ApiVersionFieldsRoundTrip(variant: nat, major: nat, minor: nat, patch: nat)
    requires variant < 8 && major < 0x80 && minor < 0x400 && patch < 0x1000
    ensures ApiVersionVariant(MakeApiVersion(variant, major, minor, patch)) == variant
    ensures ApiVersionMajor(MakeApiVersion(variant, major, minor, patch)) == major
    ensures ApiVersionMinor(MakeApiVersion(variant, major, minor, patch)) == minor
    ensures ApiVersionPatch(MakeApiVersion(variant, major, minor, patch)) == patch
  {
    var v := MakeApiVersion(variant, major, minor, patch);
    assert v / 0x1000 == variant * 0x2_0000 + major * 0x400 + minor;
    assert v / 0x40_0000 == variant * 0x80 + major;
  }

  /** Every 32-bit value is the packing of its four fields. */
  lemma ApiVersionDecomposes(v: u32)
    ensures MakeApiVersion(ApiVersionVariant(v), ApiVersionMajor(v), ApiVersionMinor(v), ApiVersionPatch(v)) == v
  {
    var above12 := v / 0x1000;
    var above22 := above12 / 0x400;
    assert v == above12 * 0x1000 + ApiVersionPatch(v);
    assert above12 == above22 * 0x400 + ApiVersionMinor(v);
    assert above22 == v / 0x40_0000;
    assert above22 == ApiVersionVariant(v) * 0x80 + ApiVersionMajor(v);
  }

  // ---------------------------------------------------------------------
  // Decimal text and the version formatter
  // ---------------------------------------------------------------------

  predicate IsDigit(c: char)
  {
    '0' <= c <= '9'
  }

  predicate AllDigits(s: string)
  {
    forall k :: 0 <= k < |s| ==> IsDigit(s[k])
  }

  function DigitChar(d: nat): (c: char)
    requires d < 10
    ensures IsDigit(c)
  {
    ('0' as int + d) as char
  }

  function DigitValue(c: char): (d: nat)
    requires IsDigit(c)
    ensures d < 10
  {
    c as int - '0' as int
  }

  /** fmt's "{}" for an unsigned value: its decimal digits, most significant first. */
  function Decimal(n: nat): (s: string)
    ensures |s| >= 1 && AllDigits(s)
  {
    if n < 10 then [DigitChar(n)] else Decimal(n / 10) + [DigitChar(n % 10)]
  }

  /** The value of a string of decimal digits. */
  function ParseDecimal(s: string): nat
    requires AllDigits(s)
  {
    if s == [] then 0 else ParseDecimal(s[..|s| - 1]) * 10 + DigitValue(s[|s| - 1])
  }

  lemma {:induction false} DecimalRoundTrip(n: nat)
    ensures ParseDecimal(Decimal(n)) == n
  {
    var s := Decimal(n);
    if n >= 10 {
      DecimalRoundTrip(n / 10);
      assert s[..|s| - 1] == Decimal(n / 10);
    }
  }

  /** format(VkVersion): "{}.{}.{}" of the major, minor and patch fields. */
  function VersionString(v: u32): (s: string)
  {
    Decimal(ApiVersionMajor(v)) + "." + Decimal(ApiVersionMinor(v)) + "." + Decimal(ApiVersionPatch(v))
  }

  /** The index of the first '.' of s, or |s| when there is none. */
  function FirstDot(s: string): (i: nat)
    ensures i <= |s| && (i < |s| ==> s[i] == '.')
    ensures forall k :: 0 <= k < i ==> s[k] != '.'
  {
    if s == [] then 0 else if s[0] == '.' then 0 else 1 + FirstDot(s[1..])
  }

  predicate IsNumber(s: string)
  {
    s != [] && AllDigits(s)
  }

  /** The text before and after the first '.' of s, when it has one. */
  function SplitAtDot(s: string): (r: Option<(string, string)>)
    ensures r.Some? ==> s == r.value.0 + "." + r.value.1 && '.' !in r.value.0
  {
    var i := FirstDot(s);
    if i == |s| then None
    else
      assert s == s[..i] + "." + s[i + 1..];
      Some((s[..i], s[i + 1..]))
  }

  /** Reads "a.b.c" back into its three numbers. */
  function ParseVersion(s: string): (r: Option<(nat, nat, nat)>)
  {
    match SplitAtDot(s)
    case None => None
    case Some((major, rest)) =>
      match SplitAtDot(rest)
      case None => None
      case Some((minor, patch)) =>
        if IsNumber(major) && IsNumber(minor) && IsNumber(patch)
        then Some((ParseDecimal(major), ParseDecimal(minor), ParseDecimal(patch)))
        else None
  }

  /** The first '.' after a run of digits is the one right after them. */
  lemma SplitAfterDigits(d: string, t: string)
    requires AllDigits(d)
    ensures SplitAtDot(d + "." + t) == Some((d, t))
  {
    var s := d + "." + t;
    assert forall k :: 0 <= k < |d| ==> s[k] == d[k];
    assert s[|d|] == '.';
    assert FirstDot(s) == |d|;
    assert s[..|d|] == d && s[|d| + 1..] == t;
  }

  /** Three numbers joined by dots read back as those numbers. */
  lemma ParseJoinedNumbers(a: string, b: string, c: string)
    requires IsNumber(a) && IsNumber(b) && IsNumber(c)
    ensures ParseVersion(a + "." + b + "." + c) == Some((ParseDecimal(a), ParseDecimal(b), ParseDecimal(c)))
  {
    assert a + "." + b + "." + c == a + "." + (b + "." + c);
    SplitAfterDigits(a, b + "." + c);
    SplitAfterDigits(b, c);
  }

  /** The version text reads back as the three fields: nothing is lost or merged. */
  lemma VersionStringRoundTrip(v: u32)
    ensures ParseVersion(VersionString(v)) == Some((ApiVersionMajor(v), ApiVersionMinor(v), ApiVersionPatch(v)))
  {
    ParseJoinedNumbers(Decimal(ApiVersionMajor(v)), Decimal(ApiVersionMinor(v)), Decimal(ApiVersionPatch(v)));
    DecimalRoundTrip(ApiVersionMajor(v));
    DecimalRoundTrip(ApiVersionMinor(v));
    DecimalRoundTrip(ApiVersionPatch(v));
  }

  // ---------------------------------------------------------------------
  // VkDebugUtilsMessageTypeFlagsEXT
  // ---------------------------------------------------------------------

  predicate HasBit(flags: Flags, bit: Flags)
  {
    flags & bit != 0
  }

  /** The three names the formatter can append. */
  predicate IsPartName(p: string)
  {
    p == "General" || p == "Validation" || p == "Performance"
  }

  /** A name is not empty, does not start like "Unknown" and does not end with '|'. */
  lemma PartNameShape(p: string)
    requires IsPartName(p)
    ensures p != "" && p[0] != 'U' && p[|p| - 1] != '|'
  {
  }

  /** The names of the set message-type bits, in the order the formatter tests them. */
  function MessageTypeParts(flags: Flags): (parts: seq<string>)
    ensures |parts| <= 3
    ensures parts == [] <==>
      !HasBit(flags, MESSAGE_TYPE_GENERAL) && !HasBit(flags, MESSAGE_TYPE_VALIDATION) && !HasBit(flags, MESSAGE_TYPE_PERFORMANCE)
    ensures forall k :: 0 <= k < |parts| ==> IsPartName(parts[k])
  {
    (if HasBit(flags, MESSAGE_TYPE_GENERAL) then ["General"] else [])
    + (if HasBit(flags, MESSAGE_TYPE_VALIDATION) then ["Validation"] else [])
    + (if HasBit(flags, MESSAGE_TYPE_PERFORMANCE) then ["Performance"] else [])
  }

  /** The parts joined with '|' between them. */
  function JoinBars(parts: seq<string>): string
  {
    if |parts| <= 1 then (if parts == [] then "" else parts[0])
    else JoinBars(parts[..|parts| - 1]) + "|" + parts[|parts| - 1]
  }

  /** The message-type text: the set bits' names joined by '|', or "Unknown" when none is set. */
  function MessageTypeName(flags: Flags): string
  {
    var parts := MessageTypeParts(flags);
    if parts == [] then "Unknown" else JoinBars(parts)
  }

  /** Each part followed by a '|', as the three `name +=` of the formatter append them. */
  function Terminated(parts: seq<string>): (t: string)
    ensures t == "" <==> parts == []
  {
    if parts == [] then "" else Terminated(parts[..|parts| - 1]) + parts[|parts| - 1] + "|"
  }

  /** Appending a part appends it and its '|' to the text. */
  lemma TerminatedSnoc(parts: seq<string>, part: string)
    ensures Terminated(parts + [part]) == Terminated(parts) + part + "|"
  {
    assert (parts + [part])[..|parts|] == parts;
  }

  lemma {:induction false} TerminatedDropsToJoin(parts: seq<string>)
    requires parts != []
    ensures |Terminated(parts)| >= 1
    ensures Terminated(parts)[..|Terminated(parts)| - 1] == JoinBars(parts)
  {
    var init := parts[..|parts| - 1];
    var last := parts[|parts| - 1];
    if init == [] {
      assert Terminated(parts) == "" + last + "|";
    } else {
      TerminatedDropsToJoin(init);
      var t := Terminated(init);
      assert Terminated(parts) == t + last + "|";
      assert t == t[..|t| - 1] + "|";
      assert Terminated(parts)[..|Terminated(parts)| - 1] == t[..|t| - 1] + "|" + last;
    }
  }

  /**
   * format(VkMessageType): append "General|", "Validation|" and
   * "Performance|" for the set bits, then drop the trailing '|' or, when
   * nothing was appended, write "Unknown".
   */
  method FormatMessageType(flags: Flags) returns (name: string)
    ensures name == MessageTypeName(flags)
  {
    ghost var parts: seq<string> := [];
    name := "";
    if HasBit(flags, MESSAGE_TYPE_GENERAL) {
      TerminatedSnoc(parts, "General");
      name := name + "General|";
      parts := parts + ["General"];
    }
    assert name == Terminated(parts);
    if HasBit(flags, MESSAGE_TYPE_VALIDATION) {
      TerminatedSnoc(parts, "Validation");
      name := name + "Validation|";
      parts := parts + ["Validation"];
    }
    assert name == Terminated(parts);
    if HasBit(flags, MESSAGE_TYPE_PERFORMANCE) {
      TerminatedSnoc(parts, "Performance");
      name := name + "Performance|";
      parts := parts + ["Performance"];
    }
    assert name == Terminated(parts);
    assert parts == MessageTypeParts(flags);
    if name != "" {
      TerminatedDropsToJoin(parts);
      name := name[..|name| - 1];
    } else {
      name := "Unknown";
    }
  }

  /** A join of non-empty parts starts with the first part and ends with the last. */
  lemma {:induction false} JoinBarsEnds(parts: seq<string>)
    requires parts != [] && forall k :: 0 <= k < |parts| ==> parts[k] != ""
    ensures |JoinBars(parts)| >= 1
    ensures JoinBars(parts)[0] == parts[0][0]
    ensures JoinBars(parts)[|JoinBars(parts)| - 1] == parts[|parts| - 1][|parts[|parts| - 1]| - 1]
  {
    if |parts| > 1 {
      var init := parts[..|parts| - 1];
      JoinBarsEnds(init);
      var j := JoinBars(init);
      assert JoinBars(parts) == j + "|" + parts[|parts| - 1];
      assert init[0] == parts[0];
    }
  }

  /**
   * The message-type text is never empty and never ends with '|', and it
   * is "Unknown" exactly when none of the three bits is set.
   */
  lemma MessageTypeNameShape(flags: Flags)
    ensures MessageTypeName(flags) != ""
    ensures MessageTypeName(flags)[|MessageTypeName(flags)| - 1] != '|'
    ensures MessageTypeName(flags) == "Unknown" <==>
      !HasBit(flags, MESSAGE_TYPE_GENERAL) && !HasBit(flags, MESSAGE_TYPE_VALIDATION) && !HasBit(flags, MESSAGE_TYPE_PERFORMANCE)
  {
    var parts := MessageTypeParts(flags);
    if parts != [] {
      forall k | 0 <= k < |parts|
        ensures parts[k] != ""
      {
        PartNameShape(parts[k]);
      }
      PartNameShape(parts[0]);
      PartNameShape(parts[|parts| - 1]);
      JoinBarsEnds(parts);
      assert JoinBars(parts)[0] != "Unknown"[0];
    }
  }
}
