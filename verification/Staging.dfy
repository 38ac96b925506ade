/** Turning a peer's manifest into paths under one folder (`geserdesk-clipboard/src/stage.rs`). */
module Staging {
  import opened Wrappers
  import opened FileTrees

  datatype SanitizeError = Empty | Escapes | ReservedName | TooLong | Duplicate

  const WINDOWS_RESERVED: set<string> := {
    "CON", "PRN", "AUX", "NUL", "COM1", "COM2", "COM3", "COM4", "COM5", "COM6", "COM7", "COM8", "COM9",
    "LPT1", "LPT2", "LPT3", "LPT4", "LPT5", "LPT6", "LPT7", "LPT8", "LPT9"
  }

  const MAX_PART: nat := 255

  // ---- names -----------------------------------------------------------------------------------------

  /** The parts of a `/`-separated name; there is always at least one. */
  function Split(s: string): (parts: seq<string>)
    ensures parts != []
  {
    if s == "" then [""]
    else
      var rest := Split(s[1..]);
      if s[0] == '/' then [""] + rest else [[s[0]] + rest[0]] + rest[1..]
  }

  lemma {:induction false} SplitWhole(s: string)
    requires '/' !in s
    ensures Split(s) == [s]
  {
    if s != "" {
      assert s[0] in s;
      SplitWhole(s[1..]);
      assert [s[0]] + s[1..] == s;
    }
  }

  lemma {:induction false} SplitMore(s: string, part: string)
    requires '/' !in part
    ensures Split(s + "/" + part) == Split(s) + [part]
  {
    if s == "" {
      SplitWhole(part);
      assert (s + "/" + part)[1..] == part;
    } else {
      assert (s + "/" + part)[1..] == s[1..] + "/" + part;
      SplitMore(s[1..], part);
    }
  }

  /** Splitting undoes joining, for names that hold no separator. */
  lemma {:induction false} SplitUndoesJoin(path: Path)
    requires path != [] && forall part | part in path :: '/' !in part
    ensures Split(Join(path)) == path
    decreases |path|
  {
    if |path| == 1 {
      assert path[0] in path;
      SplitWhole(path[0]);
      assert path == [path[0]];
    } else {
      SplitUndoesJoin(path[..|path| - 1]);
      SplitMore(Join(path[..|path| - 1]), path[|path| - 1]);
      assert path == path[..|path| - 1] + [path[|path| - 1]];
    }
  }

  lemma {:induction false} JoinFront(first: string, rest: Path)
    requires rest != []
    ensures Join([first] + rest) == first + "/" + Join(rest)
    decreases |rest|
  {
    assert ([first] + rest)[..|rest|] == [first] + rest[..|rest| - 1];
    if |rest| > 1 {
      JoinFront(first, rest[..|rest| - 1]);
    }
  }

  lemma JoinPrepend(c: char, parts: Path)
    requires parts != []
    ensures Join([[c] + parts[0]] + parts[1..]) == [c] + Join(parts)
  {
    if |parts| > 1 {
      assert parts == [parts[0]] + parts[1..];
      JoinFront(parts[0], parts[1..]);
      JoinFront([c] + parts[0], parts[1..]);
    }
  }

  /** Joining undoes splitting, for every name. */
  lemma {:induction false} JoinUndoesSplit(s: string)
    ensures Join(Split(s)) == s
  {
    if s != "" {
      JoinUndoesSplit(s[1..]);
      if s[0] == '/' {
        JoinFront("", Split(s[1..]));
      } else {
        JoinPrepend(s[0], Split(s[1..]));
      }
      assert [s[0]] + s[1..] == s;
    }
  }

  /** A name with no separator in it is one part, and the other way round. */
  lemma {:induction false} OnePart(s: string)
    ensures '/' in s <==> |Split(s)| > 1
  {
    if s != "" {
      OnePart(s[1..]);
      assert '/' in s <==> s[0] == '/' || '/' in s[1..];
    }
  }

  function AsciiUpper(s: string): string {
    seq(|s|, i requires 0 <= i < |s| => if 'a' <= s[i] <= 'z' then (s[i] as int - 32) as char else s[i])
  }

  /** What comes before the first dot. */
  function Stem(s: string): string {
    if s == "" || s[0] == '.' then "" else [s[0]] + Stem(s[1..])
  }

  function Utf8Length(s: string): nat {
    if s == "" then 0
    else
      var c := s[0] as int;
      (if c < 0x80 then 1 else if c < 0x800 then 2 else if c < 0x1_0000 then 3 else 4) + Utf8Length(s[1..])
  }

  predicate IsControl(c: char) {
    c as int < 0x20 || 0x7F <= c as int < 0xA0
  }

  function PartFault(part: string): Option<SanitizeError> {
    if part == "" || part == "." || part == ".." then Some(Escapes)
    else if '\\' in part || ':' in part || exists c | c in part :: IsControl(c) then Some(Escapes)
    else if Utf8Length(part) > MAX_PART then Some(TooLong)
    else if part[|part| - 1] == '.' || part[|part| - 1] == ' ' then Some(ReservedName)
    else if AsciiUpper(Stem(part)) in WINDOWS_RESERVED then Some(ReservedName)
    else None
  }

  /** The first fault found, part by part. */
  function FirstFault(parts: seq<string>): Option<SanitizeError> {
    if parts == [] then None
    else if PartFault(parts[0]).Some? then PartFault(parts[0])
    else FirstFault(parts[1..])
  }

  function SanitizeOne(rel: string, dest: Path): Result<Path, SanitizeError> {
    if rel == "" then Err(Empty)
    else if FirstFault(Split(rel)).Some? then Err(FirstFault(Split(rel)).value)
    else Ok(dest + Split(rel))
  }

  /** `sanitize_one`. */
  method SanitizeOneLoop(rel: string, dest: Path) returns (result: Result<Path, SanitizeError>)
    ensures result == SanitizeOne(rel, dest)
  {
    if rel == "" {
      return Err(Empty);
    }
    var out := dest;
    var parts := Split(rel);
    assert parts[0..] == parts && dest + parts[..0] == dest;
    for i := 0 to |parts|
      invariant out == dest + parts[..i]
      invariant FirstFault(parts[i..]) == FirstFault(parts)
    {
      assert parts[i..][1..] == parts[i + 1..];
      var fault := PartFault(parts[i]);
      if fault.Some? {
        return Err(fault.value);
      }
      out := out + [parts[i]];
    }
    assert parts[..|parts|] == parts;
    if !(dest <= out) {
      return Err(Escapes);
    }
    return Ok(out);
  }

  // ---- the whole manifest ----------------------------------------------------------------------------------

  /** One path for each entry; `lower` is Unicode lower-casing, of which nothing is asked. */
  function SanitizeFrom(entries: seq<FileEntry>, dest: Path, lower: string -> string, seen: set<string>)
    : Result<seq<Path>, SanitizeError>
    decreases |entries|
  {
    if entries == [] then Ok([])
    else
      match SanitizeOne(entries[0].path, dest)
      case Err(e) => Err(e)
      case Ok(path) =>
        if lower(entries[0].path) in seen then Err(Duplicate)
        else
          match SanitizeFrom(entries[1..], dest, lower, seen + {lower(entries[0].path)})
          case Err(e) => Err(e)
          case Ok(others) => Ok([path] + others)
  }

  function SanitizeManifest(entries: seq<FileEntry>, dest: Path,
          lower: string -> string): Result<seq<Path>, SanitizeError> {
    SanitizeFrom(entries, dest, lower, {})
  }

  /** `sanitize_manifest`. */
  method SanitizeManifestLoop(entries: seq<FileEntry>, dest: Path, lower: string -> string)
    returns (result: Result<seq<Path>, SanitizeError>)
    ensures result == SanitizeManifest(entries, dest, lower)
  {
    var seen: set<string> := {};
    var out: seq<Path> := [];
    assert entries[0..] == entries && forall others: seq<Path> :: out + others == others;
    for i := 0 to |entries|
      invariant SanitizeManifest(entries, dest, lower)
          == match SanitizeFrom(entries[i..], dest, lower, seen) case Err(e) => Err(e) case Ok(others) => Ok(out + others)
    {
      assert entries[i..][1..] == entries[i + 1..];
      var one := SanitizeOneLoop(entries[i].path, dest);
      if one.Err? {
        return Err(one.error);
      }
      if lower(entries[i].path) in seen {
        return Err(Duplicate);
      }
      seen := seen + {lower(entries[i].path)};
      ghost var before := out;
      out := out + [one.value];
      assert forall others: seq<Path> :: before + ([one.value] + others) == out + others;
    }
    assert out + [] == out;
    return Ok(out);
  }

  // ---- which names are accepted ------------------------------------------------------------------------------

  /** The names Windows keeps for devices. */
  predicate IsDevice(name: string) {
    || name in {"CON", "PRN", "AUX", "NUL"}
    || (|name| == 4 && ("COM" <= name || "LPT" <= name) && '1' <= name[3] <= '9')
  }

  /** The same letter, or one the capital of the other. */
  predicate SameLetter(c: char, d: char) {
    || c == d
    || ('A' <= c <= 'Z' && d as int == c as int + 32)
    || ('A' <= d <= 'Z' && c as int == d as int + 32)
  }

  predicate SameButForCase(a: string, b: string) {
    |a| == |b| && forall i :: 0 <= i < |a| ==> SameLetter(a[i], b[i])
  }

  /** The first dot of `part`, or its end. */
  predicate IsStemEnd(part: string, k: int) {
    0 <= k <= |part| && (k < |part| ==> part[k] == '.') && forall i :: 0 <= i < k ==> part[i] != '.'
  }

  /** What comes before the first dot is the name of a device, in any case. */
  ghost predicate NamesDevice(part: string) {
    exists k, device :: IsStemEnd(part, k) && IsDevice(device) && SameButForCase(part[..k], device)
  }

  /** A part that could lead elsewhere: nothing, this folder, the one above, or one with a separator or a
      drive of Windows in it or with control characters. */
  predicate Strays(part: string) {
    || part == "" || part == "." || part == ".."
    || exists c | c in part :: c == '\\' || c == ':' || c as int <= 0x1F || 0x7F <= c as int <= 0x9F
  }

  /** A part of a name that can be a file's on either system. */
  ghost predicate Acceptable(part: string) {
    && !Strays(part) && Utf8Length(part) <= 255
    && part[|part| - 1] != '.' && part[|part| - 1] != ' ' && !NamesDevice(part)
  }

  lemma {:induction false} StemEnds(part: string) returns (k: int)
    ensures IsStemEnd(part, k) && Stem(part) == part[..k]
  {
    k := 0;
    if part != "" && part[0] != '.' {
      k := StemEnds(part[1..]);
      k := k + 1;
      assert part[..k] == [part[0]] + part[1..][..k - 1];
    }
  }

  lemma UpperIsSame(s: string, device: string)
    requires IsDevice(device)
    ensures SameButForCase(s, device) <==> AsciiUpper(s) == device
  {
    assert forall i | 0 <= i < |device| :: 'A' <= device[i] <= 'Z' || '1' <= device[i] <= '9';
  }

  lemma DevicesAreReserved(name: string)
    requires IsDevice(name)
    ensures name in WINDOWS_RESERVED
  {
    if name !in {"CON", "PRN", "AUX", "NUL"} {
      var i := name[3] as int - '1' as int;
      if "COM" <= name {
        var com := ["COM1", "COM2", "COM3", "COM4", "COM5", "COM6", "COM7", "COM8", "COM9"];
        assert name == com[i];
      } else {
        var lpt := ["LPT1", "LPT2", "LPT3", "LPT4", "LPT5", "LPT6", "LPT7", "LPT8", "LPT9"];
        assert name == lpt[i];
      }
    }
  }

  lemma StemIsReserved(part: string)
    ensures AsciiUpper(Stem(part)) in WINDOWS_RESERVED <==> NamesDevice(part)
  {
    var k := StemEnds(part);
    var upper := AsciiUpper(Stem(part));
    if IsDevice(upper) {
      DevicesAreReserved(upper);
      UpperIsSame(Stem(part), upper);
    }
    if j, device :| IsStemEnd(part, j) && IsDevice(device) && SameButForCase(part[..j], device) {
      assert j == k;
      UpperIsSame(part[..j], device);
      DevicesAreReserved(device);
    }
  }

  /** What is found wrong with a part: that it strays, else that it is too long, else that Windows keeps
      it for itself; and nothing exactly if it is acceptable. */
  lemma FaultIsWhy(part: string)
    ensures PartFault(part) ==
      if Strays(part) then Some(Escapes)
      else if Utf8Length(part) > 255 then Some(TooLong)
      else if !Acceptable(part) then Some(ReservedName) else None
  {
    StemIsReserved(part);
    if Strays(part) && part != "" && part != "." && part != ".." {
      var c :| c in part && (c == '\\' || c == ':' || c as int <= 0x1F || 0x7F <= c as int <= 0x9F);
      assert IsControl(c) || c == '\\' || c == ':';
    }
  }

  /** Exactly the names of acceptable parts are accepted. */
  lemma AcceptedExactly(rel: string, dest: Path)
    ensures SanitizeOne(rel, dest).Ok? <==> forall part | part in Split(rel) :: Acceptable(part)
  {
    AllAcceptable(Split(rel));
    if rel == "" {
      assert "" in Split(rel) && !Acceptable("");
    }
  }

  /** The others are refused for their first part that is not, and for what is wrong with it; the empty
      name for being empty. */
  lemma RefusedForTheFirst(rel: string, dest: Path, i: nat)
    requires i < |Split(rel)| && IsFirstBad(Split(rel), i)
    ensures var part := Split(rel)[i];
      SanitizeOne(rel, dest) == Err(
        if rel == "" then Empty else if Strays(part) then Escapes else if Utf8Length(part) > 255 then TooLong else ReservedName)
  {
    FirstBadIsFault(Split(rel), i);
    FaultIsWhy(Split(rel)[i]);
  }

  lemma AllAcceptable(parts: seq<string>)
    ensures FirstFault(parts).None? <==> forall part | part in parts :: Acceptable(part)
  {
    FaultlessParts(parts);
    forall part | part in parts ensures PartFault(part).None? <==> Acceptable(part) {
      FaultIsWhy(part);
    }
  }

  ghost predicate IsFirstBad(parts: seq<string>, i: nat)
    requires i < |parts|
  {
    !Acceptable(parts[i]) && forall j | 0 <= j < i :: Acceptable(parts[j])
  }

  lemma {:induction false} FirstBadIsFault(parts: seq<string>, i: nat)
    requires i < |parts| && IsFirstBad(parts, i)
    ensures FirstFault(parts) == PartFault(parts[i]) && PartFault(parts[i]).Some?
    decreases |parts|
  {
    FaultIsWhy(parts[0]);
    if i > 0 {
      FirstBadIsFault(parts[1..], i - 1);
    }
  }

  function Pow2(n: nat): nat {
    if n == 0 then 1 else 2 * Pow2(n - 1)
  }

  /** How many bits of a character `n` bytes of UTF-8 hold: seven in one byte, else what the first byte
      has left beside its mark, and six in each that follows (section 3 of RFC 3629). */
  function Capacity(n: nat): nat
    requires 1 <= n <= 4
  {
    if n == 1 then 7 else 7 - n + 6 * (n - 1)
  }

  /** `n` is the least number of bytes that hold the character. */
  predicate TakesBytes(c: char, n: nat) {
    1 <= n <= 4 && (c as int) < Pow2(Capacity(n)) && forall m | 1 <= m < n :: c as int >= Pow2(Capacity(m))
  }

  function Total(sizes: seq<nat>): nat {
    if sizes == [] then 0 else sizes[0] + Total(sizes[1..])
  }

  lemma Capacities()
    ensures Pow2(7) == 0x80 && Pow2(11) == 0x800 && Pow2(16) == 0x1_0000 && Pow2(21) == 0x20_0000
  {
    assert Pow2(4) == 16 && Pow2(8) == 0x100 && Pow2(12) == 0x1000;
  }

  /** The length that is limited is that of the name's UTF-8. */
  lemma {:induction false} Utf8LengthIsBytes(s: string, sizes: seq<nat>)
    requires |sizes| == |s| && forall i :: 0 <= i < |s| ==> TakesBytes(s[i], sizes[i])
    ensures Utf8Length(s) == Total(sizes)
  {
    if s != "" {
      Capacities();
      var c, n := s[0], sizes[0];
      assert TakesBytes(c, n) && Capacity(1) == 7 && Capacity(2) == 11 && Capacity(3) == 16 && Capacity(4) == 21;
      Utf8LengthIsBytes(s[1..], sizes[1..]);
    }
  }

  // ---- where accepted names lead -----------------------------------------------------------------------------

  /** Where a path leads when every part is followed as a file system follows it. */
  function Landing(from: Path, parts: seq<string>): Path
    decreases |parts|
  {
    if parts == [] then from
    else
      var part := parts[0];
      Landing(
        if part == "" || part == "." then from
        else if part == ".." then (if from == [] then [] else from[..|from| - 1])
        else from + [part],
        parts[1..])
  }

  lemma {:induction false} FaultlessLands(from: Path, parts: seq<string>)
    requires FirstFault(parts).None?
    ensures Landing(from, parts) == from + parts
    decreases |parts|
  {
    if parts == [] {
      assert from + parts == from;
    } else {
      FaultlessLands(from + [parts[0]], parts[1..]);
      assert from + [parts[0]] + parts[1..] == from + parts;
    }
  }

  /** The steps of a name on Windows, where `\\` separates like `/`. */
  function WindowsSteps(s: string): (steps: seq<string>)
    ensures steps != []
  {
    if s == "" then [""]
    else
      var rest := WindowsSteps(s[1..]);
      if s[0] == '/' || s[0] == '\\' then [""] + rest else [[s[0]] + rest[0]] + rest[1..]
  }

  /** Windows drops dots and spaces at the end of a name. */
  function Trimmed(step: string): string {
    if step != "" && (step[|step| - 1] == '.' || step[|step| - 1] == ' ') then Trimmed(step[..|step| - 1]) else step
  }

  /** Where the steps lead on Windows: a separator at the very beginning goes to the top, and a step with a
      colon in it to a drive of that name, wherever that is. */
  function WindowsLanding(from: Path, steps: seq<string>, first: bool): Path
    decreases |steps|
  {
    if steps == [] then from
    else
      var step := steps[0];
      WindowsLanding(
        if step == "" && first then []
        else if step == "" || step == "." then from
        else if step == ".." then (if from == [] then [] else from[..|from| - 1])
        else if ':' in step then [step]
        else from + [Trimmed(step)],
        steps[1..], false)
  }

  lemma {:induction false} PartsHoldTheRest(s: string, c: char)
    requires c != '/'
    ensures c in s <==> exists part :: part in Split(s) && c in part
  {
    if s != "" {
      var rest := Split(s[1..]);
      PartsHoldTheRest(s[1..], c);
      assert s == [s[0]] + s[1..];
      if s[0] == '/' {
        assert Split(s) == [""] + rest;
      } else {
        var parts := [[s[0]] + rest[0]] + rest[1..];
        assert parts[0] in parts && rest == [rest[0]] + rest[1..] && parts == Split(s);
        if part :| part in rest && c in part {
          assert part == rest[0] || part in parts;
        }
        if part :| part in parts && c in part {
          assert part == parts[0] || part in rest;
        }
      }
    }
  }

  lemma {:induction false} SameSteps(s: string)
    requires '\\' !in s
    ensures WindowsSteps(s) == Split(s)
  {
    if s != "" {
      assert s[0] in s;
      SameSteps(s[1..]);
    }
  }

  lemma {:induction false} AcceptableLands(from: Path, parts: seq<string>, first: bool)
    requires forall part | part in parts :: Acceptable(part)
    ensures WindowsLanding(from, parts, first) == from + parts
    decreases |parts|
  {
    if parts == [] {
      assert from + parts == from;
    } else {
      assert parts[0] in parts && ':' !in parts[0];
      AcceptableLands(from + [parts[0]], parts[1..], false);
      assert from + [parts[0]] + parts[1..] == from + parts;
    }
  }

  /** A name that is accepted leads strictly inside the destination, whatever the name, and on Windows to
      the same place as elsewhere. */
  lemma AcceptedStaysInside(rel: string, dest: Path)
    requires SanitizeOne(rel, dest).Ok?
    ensures var path := SanitizeOne(rel, dest).value;
      && dest < path && path == Landing(dest, Split(rel)) && path == WindowsLanding(dest, WindowsSteps(rel), true)
      && forall part | part in path[|dest|..] :: Acceptable(part)
  {
    var parts := Split(rel);
    FaultlessLands(dest, parts);
    AcceptedExactly(rel, dest);
    PartsHoldTheRest(rel, '\\');
    SameSteps(rel);
    AcceptableLands(dest, parts, true);
    assert (dest + parts)[|dest|..] == parts;
  }

  lemma {:induction false} FaultlessParts(parts: seq<string>)
    ensures FirstFault(parts).None? <==> forall part | part in parts :: PartFault(part).None?
  {
    if parts != [] {
      FaultlessParts(parts[1..]);
      assert parts[0] in parts && forall part :: part in parts <==> part == parts[0] || part in parts[1..];
    }
  }

  /** No two entries are the same name once case is ignored, nor one already seen. */
  predicate Distinct(entries: seq<FileEntry>, lower: string -> string, seen: set<string>) {
    && (forall i :: 0 <= i < |entries| ==> lower(entries[i].path) !in seen)
    && (forall i, j :: 0 <= i < j < |entries| ==> lower(entries[i].path) != lower(entries[j].path))
  }

  /** A manifest is accepted iff each of its names is and no two collide; then the paths are the
      entries' own, in order. */
  lemma {:induction false} SanitizeAccepts(entries: seq<FileEntry>, dest: Path, lower: string -> string,
          seen: set<string>)
    ensures var r := SanitizeFrom(entries, dest, lower, seen);
      && (r.Ok? <==> (forall i :: 0 <= i < |entries| ==> SanitizeOne(entries[i].path, dest).Ok?) && Distinct(entries, lower, seen))
      && (r.Ok? ==> |r.value| == |entries| && forall i :: 0 <= i < |entries| ==> r.value[i] == dest + Split(entries[i].path))
    decreases |entries|
  {
    if entries != [] {
      var tail, more := entries[1..], seen + {lower(entries[0].path)};
      SanitizeAccepts(tail, dest, lower, more);
      FirstAndRest(entries, dest);
      DistinctFirst(entries, lower, seen);
      assert forall i :: 0 <= i < |tail| ==> tail[i] == entries[i + 1];
    }
  }

  lemma FirstAndRest(entries: seq<FileEntry>, dest: Path)
    requires entries != []
    ensures (forall i :: 0 <= i < |entries| ==> SanitizeOne(entries[i].path, dest).Ok?) <==>
      SanitizeOne(entries[0].path, dest).Ok? && forall i :: 0 <= i < |entries[1..]| ==> SanitizeOne(entries[1..][i].path, dest).Ok?
  {
    var tail := entries[1..];
    assert forall i :: 0 <= i < |tail| ==> tail[i] == entries[i + 1];
    if forall i :: 0 <= i < |tail| ==> SanitizeOne(tail[i].path, dest).Ok? {
      forall i | 0 < i < |entries| ensures SanitizeOne(entries[i].path, dest).Ok? {
        assert entries[i] == tail[i - 1];
      }
    }
  }

  lemma DistinctFirst(entries: seq<FileEntry>, lower: string -> string, seen: set<string>)
    requires entries != []
    ensures Distinct(entries, lower, seen) <==>
      lower(entries[0].path) !in seen && Distinct(entries[1..], lower, seen + {lower(entries[0].path)})
  {
    var tail, more := entries[1..], seen + {lower(entries[0].path)};
    assert forall i :: 0 <= i < |tail| ==> tail[i] == entries[i + 1];
    if lower(entries[0].path) !in seen && Distinct(tail, lower, more) {
      forall i | 0 < i < |entries| ensures lower(entries[i].path) !in more {
        assert entries[i] == tail[i - 1];
      }
      forall i, j | 0 <= i < j < |entries| ensures lower(entries[i].path) != lower(entries[j].path) {
        assert entries[j] == tail[j - 1];
        if i > 0 {
          assert entries[i] == tail[i - 1];
        }
      }
    }
  }
}
