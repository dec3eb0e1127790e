// Portable relative paths: lexical cleaning, the validation rules, and joining
// below a root. Separators are '/', as on the Unix builds.
module Paths {
  import opened Results
  import opened Transfers

  // --- splitting and joining on '/' ---------------------------------------

  function Split(s: string): (r: seq<string>)
    ensures |r| > 0
  {
    if s == "" then [""]
    else
      Prepend(s[0], Split(s[1..]))
  }

  function Join(parts: seq<string>): string {
    if parts == [] then ""
    else if |parts| == 1 then parts[0]
    else parts[0] + "/" + Join(parts[1..])
  }

  predicate NoSlash(part: string) {
    '/' !in part
  }

  lemma {:induction false} SplitParts(s: string)
    ensures forall p :: p in Split(s) ==> NoSlash(p)
    ensures Join(Split(s)) == s
  {
    if s != "" {
      SplitParts(s[1..]);
      var rest := Split(s[1..]);
      var r := Split(s);
      if s[0] == '/' {
        assert r[1..] == rest;
        assert Join(r) == "" + "/" + Join(rest);
        assert s == "/" + s[1..];
      } else {
        assert r[1..] == rest[1..];
        assert rest == [rest[0]] + rest[1..];
        assert NoSlash(rest[0]);
        assert s == [s[0]] + s[1..];
        if |rest| > 1 {
          assert Join(r) == ([s[0]] + rest[0]) + "/" + Join(rest[1..]);
          assert Join(rest) == rest[0] + "/" + Join(rest[1..]);
        }
      }
    }
  }

  lemma {:induction false} SplitAppend(a: string, b: string)
    ensures Split(a + "/" + b) == Split(a) + Split(b)
  {
    if a == "" {
      assert a + "/" + b == "/" + b;
      assert ("/" + b)[1..] == b;
    } else {
      var s, rest, tail := a + "/" + b, Split(a[1..]), Split(b);
      SplitAppend(a[1..], b);
      assert s[0] == a[0] && s[1..] == a[1..] + "/" + b;
      HeadAppend(a[0], rest, tail);
      assert Split(s) == Prepend(s[0], Split(s[1..])) == Prepend(a[0], rest + tail);
      assert Split(a) == Prepend(a[0], rest);
    }
  }

  // What Split does with one more leading character.
  function Prepend(c: char, rest: seq<string>): seq<string>
    requires rest != []
  {
    if c == '/' then [""] + rest else [[c] + rest[0]] + rest[1..]
  }

  lemma HeadAppend(c: char, rest: seq<string>, tail: seq<string>)
    requires rest != []
    ensures Prepend(c, rest + tail) == Prepend(c, rest) + tail
  {
    assert (rest + tail)[1..] == rest[1..] + tail;
  }

  lemma SplitHead(a: string, s: string)
    requires NoSlash(a)
    ensures a + "/" <= s ==> Split(s)[0] == a
  {
    if a + "/" <= s {
      assert s == a + "/" + s[|a| + 1..];
      SplitAppend(a, s[|a| + 1..]);
      SplitPart(a);
    }
  }

  lemma {:induction false} SplitPart(p: string)
    requires NoSlash(p)
    ensures Split(p) == [p]
  {
    if p != "" {
      assert NoSlash(p[1..]);
      SplitPart(p[1..]);
      assert [p[0]] + p[1..] == p;
    }
  }

  lemma {:induction false} SplitJoin(parts: seq<string>)
    requires parts != [] && forall p :: p in parts ==> NoSlash(p)
    ensures Split(Join(parts)) == parts
  {
    assert NoSlash(parts[0]);
    SplitPart(parts[0]);
    if |parts| == 1 {
      assert parts == [parts[0]];
    } else {
      var rest := parts[1..];
      assert parts == [parts[0]] + rest;
      assert forall p :: p in rest ==> NoSlash(p);
      SplitJoin(rest);
      SplitAppend(parts[0], Join(rest));
    }
  }

  // --- lexical cleaning (filepath.Clean) ----------------------------------

  function CleanStep(kept: Path, part: string, rooted: bool): Path {
    if part == "" || part == "." then kept
    else if part == ".." then
      if kept != [] && kept[|kept| - 1] != ".." then kept[..|kept| - 1]
      else if rooted then kept
      else kept + [".."]
    else kept + [part]
  }

  function CleanFold(kept: Path, parts: seq<string>, rooted: bool): Path
    decreases |parts|
  {
    if parts == [] then kept
    else CleanFold(CleanStep(kept, parts[0], rooted), parts[1..], rooted)
  }

  predicate IsAbs(s: string) {
    s != "" && s[0] == '/'
  }

  function Components(s: string): Path {
    CleanFold([], Split(s), IsAbs(s))
  }

  function Absolute(p: Path): string {
    "/" + Join(p)
  }

  function Clean(s: string): string {
    if IsAbs(s) then Absolute(Components(s))
    else if Components(s) == [] then "."
    else Join(Components(s))
  }

  // A component that cleaning keeps as it is.
  predicate Proper(part: string) {
    part != "" && part != "." && part != ".." && NoSlash(part)
  }

  predicate AllProper(parts: seq<string>) {
    forall p :: p in parts ==> Proper(p)
  }

  lemma {:induction false} FoldProper(kept: Path, parts: seq<string>, rooted: bool)
    requires AllProper(parts)
    ensures CleanFold(kept, parts, rooted) == kept + parts
    decreases |parts|
  {
    if parts == [] {
      assert kept + parts == kept;
    } else {
      assert Proper(parts[0]) && AllProper(parts[1..]);
      assert CleanStep(kept, parts[0], rooted) == kept + [parts[0]];
      FoldProper(kept + [parts[0]], parts[1..], rooted);
      assert kept + [parts[0]] + parts[1..] == kept + parts;
    }
  }

  lemma {:induction false} FoldAppend(kept: Path, a: seq<string>, b: seq<string>, rooted: bool)
    ensures CleanFold(kept, a + b, rooted) == CleanFold(CleanFold(kept, a, rooted), b, rooted)
    decreases |a|
  {
    if a == [] {
      assert a + b == b;
    } else {
      assert (a + b)[0] == a[0] && (a + b)[1..] == a[1..] + b;
      FoldAppend(CleanStep(kept, a[0], rooted), a[1..], b, rooted);
    }
  }

  lemma {:induction false} RootedFoldIsProper(kept: Path, parts: seq<string>)
    requires AllProper(kept) && forall p :: p in parts ==> NoSlash(p)
    ensures AllProper(CleanFold(kept, parts, true))
    decreases |parts|
  {
    if parts != [] {
      RootedFoldIsProper(CleanStep(kept, parts[0], true), parts[1..]);
    }
  }

  lemma AbsoluteComponentsProper(s: string)
    requires IsAbs(s)
    ensures AllProper(Components(s))
  {
    SplitParts(s);
    RootedFoldIsProper([], Split(s));
  }

  // Cleaned absolute strings and lists of proper components correspond.
  lemma AbsoluteRoundTrip(p: Path)
    requires AllProper(p)
    ensures IsAbs(Absolute(p)) && Components(Absolute(p)) == p
  {
    if p == [] {
      assert Absolute(p) == "/";
      assert Split("/") == ["", ""];
      assert CleanFold([], ["", ""], true) == [] by {
        assert ["", ""][1..] == [""];
        assert [""][1..] == [];
      }
    } else {
      SplitAppend("", Join(p));
      SplitJoin(p);
      assert "" + "/" + Join(p) == Absolute(p);
      assert Split(Absolute(p)) == [""] + p;
      assert ([""] + p)[1..] == p;
      FoldProper([], p, true);
    }
  }

  // --- validation ---------------------------------------------------------

  // The position of the last '.', or -1.
  function LastDot(name: string): (r: int)
    ensures -1 <= r < |name|
    ensures r >= 0 ==> name[r] == '.'
  {
    if name == "" then -1
    else if name[|name| - 1] == '.' then |name| - 1
    else LastDot(name[..|name| - 1])
  }

  // filepath.Ext of a single component.
  function Ext(name: string): string {
    var i := LastDot(name);
    if i < 0 then "" else name[i..]
  }

  function Stem(name: string): string {
    var i := LastDot(name);
    if i < 0 then name else name[..i]
  }

  lemma {:induction false} AfterLastDot(name: string)
    ensures forall i :: LastDot(name) < i < |name| ==> name[i] != '.'
  {
    if name != "" && name[|name| - 1] != '.' {
      AfterLastDot(name[..|name| - 1]);
    }
  }

  // A name is its stem and its extension, which starts with the last dot.
  lemma NameSplits(name: string)
    ensures Stem(name) + Ext(name) == name
    ensures Ext(name) == "" <==> '.' !in name
    ensures Ext(name) != "" ==> Ext(name)[0] == '.' && '.' !in Ext(name)[1..]
  {
    AfterLastDot(name);
  }

  function Upper(c: char): char {
    if 'a' <= c <= 'z' then 'A' + (c - 'a') else c
  }

  function ToUpper(s: string): string {
    seq(|s|, i requires 0 <= i < |s| => Upper(s[i]))
  }

  const RESERVED: set<string> := {
    "CON", "PRN", "AUX", "NUL",
    "COM1", "COM2", "COM3", "COM4", "COM5", "COM6", "COM7", "COM8", "COM9",
    "LPT1", "LPT2", "LPT3", "LPT4", "LPT5", "LPT6", "LPT7", "LPT8", "LPT9"
  }

  predicate IsWindowsReservedName(name: string) {
    ToUpper(Stem(name)) in RESERVED
    || (name != "" && (name[|name| - 1] == '.' || name[|name| - 1] == ' '))
  }

  // The same letters, however the first are capitalised; the second are capitals.
  predicate SameLetters(s: string, capitals: string) {
    |s| == |capitals| && forall i :: 0 <= i < |s| ==>
      s[i] == capitals[i] || ('a' <= s[i] <= 'z' && s[i] as int == capitals[i] as int + 32)
  }

  lemma UpperIff(s: string, capitals: string)
    requires forall i :: 0 <= i < |capitals| ==> !('a' <= capitals[i] <= 'z')
    ensures ToUpper(s) == capitals <==> SameLetters(s, capitals)
  {
    if SameLetters(s, capitals) {
      assert forall i :: 0 <= i < |s| ==> ToUpper(s)[i] == capitals[i];
    }
    if ToUpper(s) == capitals {
      assert forall i :: 0 <= i < |s| ==> Upper(s[i]) == capitals[i];
    }
  }

  // A name is refused exactly when it ends in a dot or a blank, or is a device's up
  // to its last dot, in any capitalisation.
  lemma ReservedIff(name: string)
    ensures IsWindowsReservedName(name) <==>
      || (exists front: string :: name == front + "." || name == front + " ")
      || (exists device :: device in RESERVED && SameLetters(Stem(name), device))
  {
    forall device | device in RESERVED ensures ToUpper(Stem(name)) == device <==> SameLetters(Stem(name), device) {
      UpperIff(Stem(name), device);
    }
    if name != "" {
      var front, last := name[..|name| - 1], name[|name| - 1];
      assert name == front + [last];
    }
  }

  predicate HasPrefix(s: string, prefix: string) {
    prefix <= s
  }

  // validateRelativePath, check by check.
  predicate ValidRelative(value: string) {
    && value != "" && '\0' !in value && '\\' !in value && !HasPrefix(value, "/")
    && var clean := Clean(value);
    && clean != "." && clean != ".." && !HasPrefix(clean, "../") && clean == value && !IsAbs(value)
    && forall part :: part in Split(value) ==>
      part != "" && part != "." && part != ".." && !IsWindowsReservedName(part)
  }

  // The rule the checks amount to: ordinary components only.
  predicate PortableComponent(part: string) {
    part != "" && part != "." && part != ".." && !IsWindowsReservedName(part)
  }

  predicate Portable(value: string) {
    '\0' !in value && '\\' !in value && forall part :: part in Split(value) ==> PortableComponent(part)
  }

  lemma PortableIsProper(value: string)
    requires forall part :: part in Split(value) ==> PortableComponent(part)
    ensures AllProper(Split(value)) && Components(value) == Split(value)
  {
    SplitParts(value);
    assert AllProper(Split(value));
    FoldProper([], Split(value), IsAbs(value));
  }

  lemma PortableIsRelative(value: string)
    requires forall part :: part in Split(value) ==> PortableComponent(part)
    ensures value != "" && value != "." && value != ".."
    ensures !HasPrefix(value, "/") && !HasPrefix(value, "../") && !IsAbs(value)
  {
    assert PortableComponent(Split(value)[0]);
    SplitHead("", value);
    SplitHead("..", value);
    SplitPart(".");
    SplitPart("..");
    assert IsAbs(value) ==> HasPrefix(value, "/");
  }

  // Cleaning rejects nothing that the component rules accept: a path is
  // accepted exactly when each of its components is portable.
  lemma ValidIffPortable(value: string)
    ensures ValidRelative(value) <==> Portable(value)
    ensures ValidRelative(value) ==> AllProper(Split(value)) && Components(value) == Split(value)
  {
    if Portable(value) {
      PortableIsProper(value);
      PortableIsRelative(value);
      SplitParts(value);
      assert Clean(value) == value;
    }
    if ValidRelative(value) {
      PortableIsProper(value);
    }
  }

  // --- joining below a root ------------------------------------------------

  function CommonPrefix(a: Path, b: Path): (n: nat)
    ensures n <= |a| && n <= |b| && a[..n] == b[..n]
    ensures n < |a| && n < |b| ==> a[n] != b[n]
  {
    if a == [] || b == [] || a[0] != b[0] then 0
    else
      var n := CommonPrefix(a[1..], b[1..]);
      assert a[..n + 1] == [a[0]] + a[1..][..n];
      assert b[..n + 1] == [b[0]] + b[1..][..n];
      n + 1
  }

  function Ups(n: nat): Path {
    seq(n, _ => "..")
  }

  // filepath.Rel between two cleaned absolute paths.
  function Rel(base: Path, target: Path): string {
    var n := CommonPrefix(base, target);
    var parts := Ups(|base| - n) + target[n..];
    if parts == [] then "." else Join(parts)
  }

  // secureJoin for an absolute root (filepath.Abs of an absolute path cleans it).
  function SecureJoin(root: string, relative: string): Result<string, Failure>
    requires IsAbs(root)
  {
    if !ValidRelative(relative) then Err(PathTraversal)
    else
      var rootAbs := Clean(root);
      var target := Clean(rootAbs + "/" + relative);
      var rel := Rel(Components(rootAbs), Components(target));
      if rel == ".." || HasPrefix(rel, "../") then Err(PathTraversal) else Ok(target)
  }

  // Joining succeeds exactly for accepted paths and puts the path's own
  // components below the root's: the final escape check rejects nothing.
  lemma SecureJoinPlaces(root: string, relative: string)
    requires IsAbs(root)
    ensures SecureJoin(root, relative) ==
            if ValidRelative(relative) then Ok(Absolute(Components(root) + Split(relative)))
            else Err(PathTraversal)
    ensures ValidRelative(relative) ==>
            Components(SecureJoin(root, relative).value) == Components(root) + Split(relative)
  {
    if ValidRelative(relative) {
      ValidIffPortable(relative);
      AbsoluteComponentsProper(root);
      var base, own := Components(root), Split(relative);
      var rootAbs := Clean(root);
      AbsoluteRoundTrip(base);
      SplitAppend(rootAbs, relative);
      var joined := rootAbs + "/" + relative;
      assert IsAbs(joined);
      FoldAppend([], Split(rootAbs), own, true);
      FoldProper(base, own, true);
      assert Components(joined) == base + own;
      AbsoluteRoundTrip(base + own);
      RelBelow(base, own);
      SplitParts(relative);
    }
  }

  lemma RelBelow(base: Path, own: Path)
    requires AllProper(own) && own != []
    ensures Rel(base, base + own) == Join(own)
    ensures Join(own) != ".." && !HasPrefix(Join(own), "../")
  {
    var n := CommonPrefix(base, base + own);
    assert n == |base|;
    assert Ups(0) + (base + own)[n..] == own;
    SplitJoin(own);
    SplitPart("..");
    assert Proper(own[0]);
    SplitHead("..", Join(own));
  }

  // partialPath: the joined path with ".part" appended.
  function PartialName(root: string, relative: string): string
    requires IsAbs(root)
  {
    var joined := SecureJoin(root, relative);
    (if joined.Ok? then joined.value else "") + ".part"
  }

  // Distinct accepted paths never share a destination or a partial file.
  lemma JoinInjective(root: string, a: string, b: string)
    requires IsAbs(root) && ValidRelative(a) && ValidRelative(b) && a != b
    ensures SecureJoin(root, a) != SecureJoin(root, b)
    ensures PartialName(root, a) != PartialName(root, b)
  {
    SecureJoinPlaces(root, a);
    SecureJoinPlaces(root, b);
    SplitParts(a);
    SplitParts(b);
    var x, y := SecureJoin(root, a).value, SecureJoin(root, b).value;
    assert Split(a) == (Components(root) + Split(a))[|Components(root)|..];
    assert Split(b) == (Components(root) + Split(b))[|Components(root)|..];
    assert x != y;
    assert x == PartialName(root, a)[..|x|] && y == PartialName(root, b)[..|y|];
    assert |PartialName(root, a)| == |x| + 5 && |PartialName(root, b)| == |y| + 5;
  }

  // The partial file's own components.
  function PartComponents(base: Path, relative: string): Path {
    base + PartNames(relative)
  }

  lemma PartialNameComponents(root: string, relative: string)
    requires IsAbs(root) && ValidRelative(relative)
    ensures Components(PartialName(root, relative)) == PartComponents(Components(root), relative)
  {
    var base := Components(root);
    var part := PartComponents(base, relative);
    SecureJoinPlaces(root, relative);
    JoinPart(base, relative);
    assert PartialName(root, relative) == Absolute(part);
    ValidIffPortable(relative);
    AbsoluteComponentsProper(root);
    PartNamesProper(relative);
    assert AllProper(part);
    AbsoluteRoundTrip(part);
  }

  lemma JoinPart(base: Path, relative: string)
    ensures Absolute(base + Split(relative)) + ".part" == Absolute(PartComponents(base, relative))
  {
    var own := Split(relative);
    var front, last := base + own[..|own| - 1], own[|own| - 1];
    assert base + own == front + [last];
    assert PartComponents(base, relative) == front + [last + ".part"];
    JoinSuffix(front, last, ".part");
  }

  lemma PartNamesProper(relative: string)
    requires AllProper(Split(relative))
    ensures AllProper(PartNames(relative))
  {
    var own := Split(relative);
    var last := own[|own| - 1];
    assert Proper(last);
    assert |last + ".part"| > 5;
    assert Proper(last + ".part");
  }

  lemma {:induction false} JoinSuffix(front: Path, last: string, suffix: string)
    ensures Join(front + [last]) + suffix == Join(front + [last + suffix])
  {
    if front == [] {
      assert front + [last] == [last];
    } else {
      JoinSuffix(front[1..], last, suffix);
      assert (front + [last])[1..] == front[1..] + [last];
      assert (front + [last + suffix])[1..] == front[1..] + [last + suffix];
    }
  }

  // The names of a partial file below the transfer's own directory.
  function PartNames(relative: string): Path {
    var own := Split(relative);
    own[..|own| - 1] + [own[|own| - 1] + ".part"]
  }

  lemma PartNamesJoin(relative: string)
    ensures Split(relative + ".part") == PartNames(relative)
    ensures Join(PartNames(relative)) == relative + ".part"
  {
    hide Split, Join, NoSlash;
    var own := Split(relative);
    SplitParts(relative);
    var front, last := own[..|own| - 1], own[|own| - 1];
    assert own == front + [last];
    JoinSuffix(front, last, ".part");
    NoSlashPart(last);
    SplitJoin(front + [last + ".part"]);
  }

  lemma NoSlashPart(name: string)
    ensures NoSlash(name) ==> NoSlash(name + ".part")
  {
  }

  lemma BlockedBySplit(a: string, b: string)
    requires PartNames(a) <= PartNames(b) && PartNames(a) != PartNames(b)
    ensures a + ".part/" <= b
  {
    var pa, n := PartNames(a), Split(b);
    PartNamesJoin(a);
    SplitParts(b);
    assert |pa| < |PartNames(b)| == |n|;
    forall i | 0 <= i < |pa| ensures pa[i] == n[i] {
      assert pa[i] == PartNames(b)[i];
    }
    assert n == pa + n[|pa|..];
    JoinAppend(pa, n[|pa|..]);
    assert b == a + ".part/" + Join(n[|pa|..]) by {
      assert (a + ".part") + "/" + Join(n[|pa|..]) == a + ".part/" + Join(n[|pa|..]);
    }
  }

  // One partial file's name stands in the way of another's directory exactly
  // when the second path runs through the first one's ".part" name.
  lemma PartialBlocksIff(a: string, b: string)
    ensures PartNames(a) <= PartNames(b) && PartNames(a) != PartNames(b) <==> a + ".part/" <= b
  {
    if a + ".part/" <= b {
      var rest := b[|a| + 6..];
      assert b == (a + ".part") + "/" + rest;
      PartNamesJoin(a);
      SplitAppend(a + ".part", rest);
      var pa := PartNames(a);
      assert Split(b) == pa + Split(rest);
      assert PartNames(b)[..|pa|] == pa;
    }
    if PartNames(a) <= PartNames(b) && PartNames(a) != PartNames(b) {
      BlockedBySplit(a, b);
    }
  }

  lemma {:induction false} JoinAppend(a: Path, b: Path)
    requires a != [] && b != []
    ensures Join(a + b) == Join(a) + "/" + Join(b)
  {
    if |a| == 1 {
      assert (a + b)[1..] == b;
    } else {
      JoinAppend(a[1..], b);
      assert (a + b)[1..] == a[1..] + b;
      assert a[0] + "/" + (Join(a[1..]) + "/" + Join(b)) == (a[0] + "/" + Join(a[1..])) + "/" + Join(b);
    }
  }
}
