/** Printing and parsing iSCSI device paths (`transform/storage/iscsi.rs`). */
module Iscsi {
  import opened Prelude

  datatype Target = Target(host: string, iqn: string, lun: U32)

  datatype ParseResult = Parsed(target: Target) | NotAnIpPath | NotAnIscsiPath

  const DIRECTORY := "/dev/disk/by-path/"
  const ISCSI := "-iscsi-"
  const LUN := "-lun-"

  // ----- decimal numbers -----

  function DigitChar(d: nat): char
    requires d < 10
  {
    '0' + d as char
  }

  predicate IsDigit(c: char) {
    '0' <= c <= '9'
  }

  function Decimal(n: nat): (text: string)
    ensures |text| > 0 && forall c :: c in text ==> IsDigit(c)
  {
    if n < 10 then [DigitChar(n)] else Decimal(n / 10) + [DigitChar(n % 10)]
  }

  function DigitsValue(text: string): nat
    requires forall c :: c in text ==> IsDigit(c)
  {
    if text == [] then 0 else
      var last := text[|text| - 1];
      assert IsDigit(last) by { assert last in text; }
      10 * DigitsValue(text[..|text| - 1]) + (last as int - 48)
  }

  /** `parse::<u32>`: an optional plus sign, at least one digit, no overflow. */
  function ParseU32(text: string): Option<U32> {
    var digits := if text != [] && text[0] == '+' then text[1..] else text;
    if digits != [] && (forall c :: c in digits ==> IsDigit(c)) && DigitsValue(digits) <= U32_MAX
    then Some(DigitsValue(digits)) else None
  }

  // ----- substrings -----

  predicate OccursAt(text: string, pattern: string, i: nat) {
    i + |pattern| <= |text| && text[i..i + |pattern|] == pattern
  }

  predicate Occurs(text: string, pattern: string) {
    exists i :: 0 <= i <= |text| && OccursAt(text, pattern, i)
  }

  /** The first occurrence at or after `from`. */
  function FindFrom(text: string, pattern: string, start: nat): (i: Option<nat>)
    requires start <= |text|
    ensures i.Some? ==> start <= i.value <= |text| && OccursAt(text, pattern, i.value)
    ensures forall k :: start <= k <= |text| && (i.Some? ==> k < i.value) ==> !OccursAt(text, pattern, k)
    decreases |text| - start
  {
    if OccursAt(text, pattern, start) then Some(start)
    else if start == |text| then None
    else FindFrom(text, pattern, start + 1)
  }

  /** The last occurrence at or before `start`. */
  function FindBackFrom(text: string, pattern: string, start: nat): (i: Option<nat>)
    requires start <= |text|
    ensures i.Some? ==> i.value <= start && OccursAt(text, pattern, i.value)
    ensures forall k :: 0 <= k <= start && (i.Some? ==> i.value < k) ==> !OccursAt(text, pattern, k)
  {
    if OccursAt(text, pattern, start) then Some(start)
    else if start == 0 then None
    else FindBackFrom(text, pattern, start - 1)
  }

  function SplitOnce(text: string, pattern: string): Option<(string, string)> {
    match FindFrom(text, pattern, 0)
    case None => None
    case Some(i) => Some((text[..i], text[i + |pattern|..]))
  }

  function RSplitOnce(text: string, pattern: string): Option<(string, string)> {
    match FindBackFrom(text, pattern, |text|)
    case None => None
    case Some(i) => Some((text[..i], text[i + |pattern|..]))
  }

  // ----- paths -----

  function WithoutTrailingSlashes(path: string): (trimmed: string)
    ensures |trimmed| <= |path|
  {
    if path != [] && path[|path| - 1] == '/' then WithoutTrailingSlashes(path[..|path| - 1]) else path
  }

  /** Where the last component starts: just after the last slash. */
  function NameStart(path: string): (k: nat)
    ensures k <= |path| && '/' !in path[k..]
    ensures k > 0 ==> path[k - 1] == '/'
  {
    if path == [] then 0
    else if path[|path| - 1] == '/' then |path|
    else
      var k := NameStart(path[..|path| - 1]);
      assert path[k..] == path[..|path| - 1][k..] + [path[|path| - 1]];
      k
  }

  /** `Path::file_name`, or the empty string when the path has none. */
  function FileName(path: string): (name: string)
    ensures '/' !in name
    decreases |path|
  {
    var trimmed := WithoutTrailingSlashes(path);
    var k := NameStart(trimmed);
    var name := trimmed[k..];
    if name == "." && k > 0 then FileName(trimmed[..k])
    else if name == "" || name == "." || name == ".." then ""
    else name
  }

  // ----- the printer and the parser -----

  function DeviceName(t: Target): string {
    "ip-" + t.host + ISCSI + t.iqn + LUN + Decimal(t.lun)
  }

  function ToDevicePath(t: Target): string {
    DIRECTORY + DeviceName(t)
  }

  function FromDevicePath(path: string): ParseResult {
    var name := FileName(path);
    if !("ip-" <= name) then NotAnIpPath else
      match SplitOnce(name[3..], ISCSI)
      case None => NotAnIscsiPath
      case Some((host, rest)) =>
        var (iqn, lun) := match RSplitOnce(rest, LUN) case None => (rest, "0") case Some(parts) => parts;
        Parsed(Target(host, iqn, match ParseU32(lun) case None => 0 case Some(n) => n))
  }

  /** The host that a target built from a URL gets: the default port is filled in. */
  function UrlHost(name: string, port: Option<nat>): string {
    name + ":" + Decimal(if port.Some? then port.value else 3260)
  }

  /** Without a port the host gets the iSCSI default, 3260. */
  lemma DefaultPort(name: string)
    ensures UrlHost(name, None) == name + ":3260"
    ensures UrlHost(name, None) == UrlHost(name, Some(3260))
  {
    assert Decimal(32) == "32";
    assert Decimal(326) == "326";
    assert Decimal(3260) == "3260";
  }

  /** The layout of a device path, part by part. */
  lemma PathLayout(t: Target)
    ensures ToDevicePath(t) == "/dev/disk/by-path/ip-" + t.host + "-iscsi-" + t.iqn + "-lun-" + Decimal(t.lun)
  {
    assert DIRECTORY + "ip-" == "/dev/disk/by-path/ip-";
    assert DIRECTORY + DeviceName(t) == DIRECTORY + "ip-" + t.host + ISCSI + t.iqn + LUN + Decimal(t.lun);
  }

  // ----- numbers survive -----

  lemma {:induction false} DecimalValue(n: nat)
    ensures DigitsValue(Decimal(n)) == n
  {
    if n < 10 {
      assert [DigitChar(n)][..0] == [];
    } else {
      DecimalValue(n / 10);
      assert Decimal(n)[..|Decimal(n)| - 1] == Decimal(n / 10);
    }
  }

  lemma DecimalParses(n: U32)
    ensures ParseU32(Decimal(n)) == Some(n)
  {
    DecimalValue(n);
    assert Decimal(n)[0] in Decimal(n);
  }

  /** Numbers may carry a plus sign, and larger ones are refused. */
  lemma NumbersInRange(n: nat)
    ensures n <= U32_MAX ==> ParseU32("+" + Decimal(n)) == Some(n)
    ensures n > U32_MAX ==> ParseU32(Decimal(n)) == None
  {
    DecimalValue(n);
    assert Decimal(n)[0] in Decimal(n);
    assert ("+" + Decimal(n))[1..] == Decimal(n);
  }

  // ----- the pieces of a printed name are found again -----

  lemma FirstIs(text: string, pattern: string, start: nat, i: nat)
    requires start <= i <= |text| && OccursAt(text, pattern, i)
    requires forall k :: start <= k < i ==> !OccursAt(text, pattern, k)
    ensures FindFrom(text, pattern, start) == Some(i)
  {
  }

  lemma LastIs(text: string, pattern: string, i: nat)
    requires i <= |text| && OccursAt(text, pattern, i)
    requires forall k :: i < k <= |text| ==> !OccursAt(text, pattern, k)
    ensures FindBackFrom(text, pattern, |text|) == Some(i)
  {
  }

  lemma Mismatch(text: string, pattern: string, k: nat, i: nat)
    requires i < |pattern| && k + i < |text| && text[k + i] != pattern[i]
    ensures !OccursAt(text, pattern, k)
  {
    if k + |pattern| <= |text| {
      assert text[k..k + |pattern|][i] == text[k + i];
    }
  }

  lemma NoLaterLun(iqn: string, lun: U32, k: nat)
    requires |iqn| < k
    ensures !OccursAt(iqn + LUN + Decimal(lun), LUN, k)
  {
    var text, digits := iqn + LUN + Decimal(lun), Decimal(lun);
    if k + 5 <= |text| {
      if k < |iqn| + 4 {
        assert text[k] == LUN[k - |iqn|];
        Mismatch(text, LUN, k, 0);
      } else if k == |iqn| + 4 {
        assert text[k + 1] == digits[0] && digits[0] in digits;
        Mismatch(text, LUN, k, 1);
      } else {
        assert text[k] == digits[k - |iqn| - 5] && digits[k - |iqn| - 5] in digits;
        Mismatch(text, LUN, k, 0);
      }
    }
  }

  /** The last `-lun-` of `iqn-lun-digits` is the printed one, whatever the IQN contains. */
  lemma LunSplits(iqn: string, lun: U32)
    ensures RSplitOnce(iqn + LUN + Decimal(lun), LUN) == Some((iqn, Decimal(lun)))
  {
    var text := iqn + LUN + Decimal(lun);
    assert text[|iqn|..|iqn| + 5] == LUN;
    forall k | |iqn| < k <= |text| ensures !OccursAt(text, LUN, k) {
      NoLaterLun(iqn, lun, k);
    }
    LastIs(text, LUN, |iqn|);
    assert text[..|iqn|] == iqn && text[|iqn| + 5..] == Decimal(lun);
  }

  /**
   * An occurrence of `-iscsi-` that begins inside the host lies within the host and the dash
   * that follows it, because the pattern's only proper overlap with itself is that dash.
   */
  lemma EarlyOccurrence(host: string, rest: string, k: nat)
    requires k < |host|
    ensures OccursAt(host + ISCSI + rest, ISCSI, k) <==> OccursAt(host + "-", ISCSI, k)
  {
    var text := host + ISCSI + rest;
    var d := |host| - k;
    if d < 6 {
      assert text[k + d] == '-';
      Mismatch(text, ISCSI, k, d);
    } else {
      assert (host + "-")[k..k + 7] == text[k..k + 7];
    }
  }

  /** The parser finds the printed host exactly when no earlier `-iscsi-` interferes. */
  lemma HostSplits(host: string, rest: string)
    ensures SplitOnce(host + ISCSI + rest, ISCSI).Some?
    ensures !Occurs(host + "-", ISCSI) ==> SplitOnce(host + ISCSI + rest, ISCSI) == Some((host, rest))
    ensures Occurs(host + "-", ISCSI) ==> |SplitOnce(host + ISCSI + rest, ISCSI).value.0| < |host|
  {
    var text := host + ISCSI + rest;
    assert text[|host|..|host| + 7] == ISCSI;
    if !Occurs(host + "-", ISCSI) {
      forall k | 0 <= k < |host| ensures !OccursAt(text, ISCSI, k) {
        EarlyOccurrence(host, rest, k);
      }
      FirstIs(text, ISCSI, 0, |host|);
      assert text[..|host|] == host && text[|host| + 7..] == rest;
    } else {
      var k :| 0 <= k <= |host + "-"| && OccursAt(host + "-", ISCSI, k);
      EarlyOccurrence(host, rest, k);
    }
    assert OccursAt(text, ISCSI, |host|);
  }

  lemma {:induction false} NameStartOf(dir: string, name: string)
    requires '/' !in name
    ensures NameStart(dir + "/" + name) == |dir| + 1
    decreases |name|
  {
    var path := dir + "/" + name;
    if name == [] {
      assert path[|path| - 1] == '/';
    } else {
      assert path[|path| - 1] == name[|name| - 1] && name[|name| - 1] in name;
      assert path[..|path| - 1] == dir + "/" + name[..|name| - 1];
      NameStartOf(dir, name[..|name| - 1]);
    }
  }

  lemma FileNameOf(dir: string, name: string)
    requires '/' !in name && name != "" && name != "." && name != ".."
    ensures FileName(dir + "/" + name) == name
  {
    var path := dir + "/" + name;
    assert path[|path| - 1] == name[|name| - 1] && name[|name| - 1] in name;
    assert WithoutTrailingSlashes(path) == path;
    NameStartOf(dir, name);
    assert path[|dir| + 1..] == name;
  }

  lemma NoSlashIn(a: string, b: string)
    ensures '/' in a + b <==> '/' in a || '/' in b
  {
  }

  lemma NameHasNoSlash(t: Target)
    requires '/' !in t.host && '/' !in t.iqn
    ensures '/' !in DeviceName(t)
  {
    NoSlashIn("ip-", t.host);
    NoSlashIn("ip-" + t.host, ISCSI);
    NoSlashIn("ip-" + t.host + ISCSI, t.iqn);
    NoSlashIn("ip-" + t.host + ISCSI + t.iqn, LUN);
    NoSlashIn("ip-" + t.host + ISCSI + t.iqn + LUN, Decimal(t.lun));
  }

  lemma NameAfterPrefix(t: Target)
    ensures "ip-" <= DeviceName(t)
    ensures DeviceName(t)[3..] == t.host + ISCSI + (t.iqn + LUN + Decimal(t.lun))
  {
    var tail := t.host + ISCSI + (t.iqn + LUN + Decimal(t.lun));
    assert DeviceName(t) == "ip-" + tail;
  }

  lemma PrintedName(t: Target)
    requires '/' !in t.host && '/' !in t.iqn
    ensures FileName(ToDevicePath(t)) == DeviceName(t)
  {
    NameHasNoSlash(t);
    NameAfterPrefix(t);
    assert DeviceName(t)[..3] == "ip-";
    FileNameOf("/dev/disk/by-path", DeviceName(t));
    assert "/dev/disk/by-path" + "/" == DIRECTORY;
  }

  // ----- the round trip -----

  /** Targets whose parts cannot be mistaken for the path's own punctuation. */
  predicate Unambiguous(t: Target) {
    '/' !in t.host && '/' !in t.iqn && !Occurs(t.host + "-", ISCSI)
  }

  lemma ParsedPartsHaveNoSlash(path: string)
    requires FromDevicePath(path).Parsed?
    ensures '/' !in FromDevicePath(path).target.host && '/' !in FromDevicePath(path).target.iqn
  {
  }

  /**
   * Parsing a printed path returns the same target if and only if neither host nor IQN contains
   * a slash and no `-iscsi-` starts inside the host.  The IQN may contain `-lun-` or `-iscsi-`.
   */
  lemma RoundTrip(t: Target)
    ensures FromDevicePath(ToDevicePath(t)) == Parsed(t) <==> Unambiguous(t)
  {
    if FromDevicePath(ToDevicePath(t)) == Parsed(t) {
      ParsedPartsHaveNoSlash(ToDevicePath(t));
    }
    if '/' !in t.host && '/' !in t.iqn {
      PrintedName(t);
      NameAfterPrefix(t);
      HostSplits(t.host, t.iqn + LUN + Decimal(t.lun));
      LunSplits(t.iqn, t.lun);
      DecimalParses(t.lun);
    }
  }

  /** Distinct unambiguous targets have distinct device paths. */
  lemma PrintingIsInjective(t: Target, u: Target)
    requires Unambiguous(t) && Unambiguous(u) && ToDevicePath(t) == ToDevicePath(u)
    ensures t == u
  {
    RoundTrip(t);
    RoundTrip(u);
  }

  /** Hosts built from URLs are unambiguous as soon as the host name itself is harmless. */
  lemma UrlTargetsRoundTrip(name: string, port: Option<nat>, iqn: string, lun: U32)
    ensures FromDevicePath(ToDevicePath(Target(UrlHost(name, port), iqn, lun))) == Parsed(Target(UrlHost(name, port), iqn, lun))
       <==> '/' !in name && '/' !in iqn && !Occurs(name, ISCSI)
  {
    var digits := Decimal(if port.Some? then port.value else 3260);
    var host := UrlHost(name, port);
    RoundTrip(Target(host, iqn, lun));
    NoSlashIn(name, ":");
    NoSlashIn(name + ":", digits);
    PortHidesNothing(name, digits);
  }

  lemma PortOccurrence(name: string, digits: string, k: nat)
    requires forall c :: c in digits ==> IsDigit(c)
    ensures OccursAt(name + ":" + digits + "-", ISCSI, k) <==> OccursAt(name, ISCSI, k)
  {
    var text := name + ":" + digits + "-";
    if k + 7 <= |name| {
      assert text[k..k + 7] == name[k..k + 7];
    } else if k <= |name| {
      assert text[|name|] == ':';
      Mismatch(text, ISCSI, k, |name| - k);
    } else if k + 7 <= |text| {
      assert text[k + 1] == digits[k - |name|] && digits[k - |name|] in digits;
      Mismatch(text, ISCSI, k, 1);
    }
  }

  lemma PortHidesNothing(name: string, digits: string)
    requires forall c :: c in digits ==> IsDigit(c)
    ensures Occurs(name + ":" + digits + "-", ISCSI) <==> Occurs(name, ISCSI)
  {
    var text := name + ":" + digits + "-";
    forall k: nat ensures OccursAt(text, ISCSI, k) <==> OccursAt(name, ISCSI, k) {
      PortOccurrence(name, digits, k);
    }
    if Occurs(name, ISCSI) {
      var k :| 0 <= k <= |name| && OccursAt(name, ISCSI, k);
      assert OccursAt(text, ISCSI, k);
    }
  }

  // ----- foreign paths -----

  /** Trailing slashes and current-directory components do not belong to the name. */
  lemma TrailingPartsAreIgnored(path: string)
    ensures FileName(path + "/") == FileName(path)
    ensures FileName(path + "/.") == FileName(path)
  {
    assert (path + "/")[..|path|] == path;
    assert WithoutTrailingSlashes(path + "/") == WithoutTrailingSlashes(path);
    var dotted := path + "/.";
    assert dotted == path + "/" + ".";
    assert WithoutTrailingSlashes(dotted) == dotted;
    NameStartOf(path, ".");
    assert dotted[|path| + 1..] == "." && dotted[..|path| + 1] == path + "/";
  }

  /** The two refusals, and what any other device name in a directory parses to. */
  lemma ForeignPaths(dir: string, name: string)
    requires '/' !in name && name != "" && name != "." && name != ".."
    ensures FromDevicePath(dir + "/" + name) == NotAnIpPath <==> !("ip-" <= name)
    ensures "ip-" <= name ==>
      (FromDevicePath(dir + "/" + name) == NotAnIscsiPath <==> !Occurs(name[3..], ISCSI))
  {
    FileNameOf(dir, name);
  }

  /** A name without a LUN has LUN zero. */
  lemma MissingLunIsZero(dir: string, host: string, iqn: string)
    requires '/' !in host && '/' !in iqn && !Occurs(host + "-", ISCSI) && !Occurs(iqn, LUN)
    ensures FromDevicePath(dir + "/" + ("ip-" + (host + ISCSI + iqn))) == Parsed(Target(host, iqn, 0))
  {
    var name := "ip-" + (host + ISCSI + iqn);
    assert "ip-" <= name && name[3..] == host + ISCSI + iqn;
    NoSlashIn("ip-", host + ISCSI + iqn);
    NoSlashIn(host + ISCSI, iqn);
    NoSlashIn(host, ISCSI);
    FileNameOf(dir, name);
    HostSplits(host, iqn);
    assert RSplitOnce(iqn, LUN) == None;
    ZeroParses();
  }

  lemma ZeroParses()
    ensures ParseU32("0") == Some(0)
  {
    DecimalParses(0);
    assert Decimal(0) == "0";
  }
}
