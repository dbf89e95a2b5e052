/** Relative paths of workflow package files: lexical cleaning, acceptance and display.
    A path is the sequence of its bytes; cleaning follows the four rules documented for
    path.Clean of the Go standard library. */
module PackagePath {
  import opened Common

  // ----- segments ---------------------------------------------------------------------

  /** A character in front of the first segment; a separator begins a new one. */
  function Prepend(c: char, segments: seq<string>): (r: seq<string>)
    requires segments != []
    ensures r != []
  {
    if c == '/' then [""] + segments else [[c] + segments[0]] + segments[1..]
  }

  function Split(s: string): (segments: seq<string>)
    ensures segments != []
  {
    if s == "" then [""] else Prepend(s[0], Split(s[1..]))
  }

  function Join(segments: seq<string>): string {
    if segments == [] then ""
    else if |segments| == 1 then segments[0]
    else segments[0] + "/" + Join(segments[1..])
  }

  predicate NoSlash(s: string) { '/' !in s }

  ghost predicate NoSlashes(segments: seq<string>) {
    forall i | 0 <= i < |segments| :: NoSlash(segments[i])
  }

  lemma {:induction false} SplitSegments(s: string)
    ensures NoSlashes(Split(s))
  {
    if s != "" {
      SplitSegments(s[1..]);
      PrependNoSlash(s[0], Split(s[1..]));
      hide Prepend;
    }
  }

  lemma PrependNoSlash(c: char, segments: seq<string>)
    requires segments != [] && NoSlashes(segments)
    ensures NoSlashes(Prepend(c, segments))
  {
    assert NoSlash(segments[0]);
  }

  lemma JoinPrepend(c: char, segments: seq<string>)
    requires segments != []
    ensures Join(Prepend(c, segments)) == [c] + Join(segments)
  {
    var r := Prepend(c, segments);
    if c == '/' {
      assert r[0] == "" && r[1..] == segments;
    } else if |segments| > 1 {
      assert r[0] == [c] + segments[0] && r[1..] == segments[1..];
    }
  }

  lemma {:induction false} JoinSplit(s: string)
    ensures Join(Split(s)) == s
  {
    if s != "" {
      JoinSplit(s[1..]);
      JoinPrepend(s[0], Split(s[1..]));
      hide Join, Prepend;
      assert s == [s[0]] + s[1..];
    }
  }

  lemma {:induction false} SplitPlain(s: string)
    requires NoSlash(s)
    ensures Split(s) == [s]
  {
    if s != "" {
      SplitPlain(s[1..]);
      assert s == [s[0]] + s[1..];
    }
  }

  lemma PrependConcat(c: char, a: seq<string>, b: seq<string>)
    requires a != []
    ensures Prepend(c, a + b) == Prepend(c, a) + b
  {
    assert (a + b)[0] == a[0] && (a + b)[1..] == a[1..] + b;
  }

  lemma {:induction false} SplitConcat(a: string, b: string)
    ensures Split(a + "/" + b) == Split(a) + Split(b)
  {
    var whole := a + "/" + b;
    if a == "" {
      assert whole[1..] == b;
    } else {
      assert whole[1..] == a[1..] + "/" + b && whole[0] == a[0];
      SplitConcat(a[1..], b);
      hide Prepend;
      PrependConcat(a[0], Split(a[1..]), Split(b));
    }
  }

  lemma {:induction false} SplitJoin(segments: seq<string>)
    requires segments != [] && NoSlashes(segments)
    ensures Split(Join(segments)) == segments
  {
    SplitPlain(segments[0]);
    if |segments| > 1 {
      SplitJoin(segments[1..]);
      SplitConcat(segments[0], Join(segments[1..]));
      hide Split;
      assert segments == [segments[0]] + segments[1..];
    }
  }

  lemma {:induction false} JoinConcat(a: seq<string>, b: seq<string>)
    requires a != [] && b != []
    ensures Join(a + b) == Join(a) + "/" + Join(b)
  {
    if |a| == 1 {
      assert (a + b)[1..] == b;
    } else {
      JoinConcat(a[1..], b);
      assert (a + b)[1..] == a[1..] + b;
    }
  }

  // ----- cleaning -----------------------------------------------------------------------

  datatype Kind = Skip | Up | Name

  function KindOf(segment: string): Kind {
    if segment == "" || segment == "." then Skip else if segment == ".." then Up else Name
  }

  predicate Plain(segment: string) { KindOf(segment) == Name }

  /** One more segment: empty and "." segments go, ".." takes the segment before it away,
      or stays at the front of a relative path. */
  function Pushed(rooted: bool, kept: seq<string>, segment: string): seq<string> {
    match KindOf(segment)
    case Skip => kept
    case Up =>
      if kept != [] && KindOf(kept[|kept| - 1]) != Up then kept[..|kept| - 1]
      else if rooted then kept else kept + [segment]
    case Name => kept + [segment]
  }

  function Kept(rooted: bool, kept: seq<string>, segments: seq<string>): seq<string>
    decreases |segments|
  {
    if segments == [] then kept else Kept(rooted, Pushed(rooted, kept, segments[0]), segments[1..])
  }

  function Rendered(rooted: bool, kept: seq<string>): string {
    if rooted then "/" + Join(kept) else if kept == [] then "." else Join(kept)
  }

  predicate Rooted(s: string) { s != "" && s[0] == '/' }

  function Clean(s: string): string {
    Rendered(Rooted(s), Kept(Rooted(s), [], Split(s)))
  }

  /** The segments a clean path can have: plain ones, after leading ".." if it is relative. */
  ghost predicate Normal(rooted: bool, segments: seq<string>) {
    forall i | 0 <= i < |segments| :: NormalAt(rooted, segments, i)
  }

  ghost predicate NormalAt(rooted: bool, segments: seq<string>, i: nat)
    requires i < |segments|
  {
    && NoSlash(segments[i]) && KindOf(segments[i]) != Skip
    && (KindOf(segments[i]) == Up ==> !rooted && (i > 0 ==> KindOf(segments[i - 1]) == Up))
  }

  lemma PushedIsNormal(rooted: bool, kept: seq<string>, segment: string)
    requires Normal(rooted, kept) && NoSlash(segment)
    ensures Normal(rooted, Pushed(rooted, kept, segment))
  {
    hide NoSlash, KindOf;
    var pushed := Pushed(rooted, kept, segment);
    forall i | 0 <= i < |pushed| ensures NormalAt(rooted, pushed, i) {
      if i < |kept| { assert NormalAt(rooted, kept, i); }
    }
  }

  lemma {:induction false} KeptIsNormal(rooted: bool, kept: seq<string>, segments: seq<string>)
    requires Normal(rooted, kept) && NoSlashes(segments)
    ensures Normal(rooted, Kept(rooted, kept, segments))
    decreases |segments|
  {
    hide Normal, Pushed, NoSlash;
    if segments != [] {
      PushedIsNormal(rooted, kept, segments[0]);
      KeptIsNormal(rooted, Pushed(rooted, kept, segments[0]), segments[1..]);
    }
  }

  lemma {:induction false} NormalIsKept(rooted: bool, kept: seq<string>, segments: seq<string>)
    requires Normal(rooted, kept + segments)
    ensures Kept(rooted, kept, segments) == kept + segments
    decreases |segments|
  {
    hide NoSlash, KindOf;
    if segments != [] {
      assert NormalAt(rooted, kept + segments, |kept|) && (kept + segments)[|kept|] == segments[0];
      assert kept != [] ==> (kept + segments)[|kept| - 1] == kept[|kept| - 1];
      assert Pushed(rooted, kept, segments[0]) == kept + [segments[0]];
      assert kept + segments == (kept + [segments[0]]) + segments[1..];
      NormalIsKept(rooted, kept + [segments[0]], segments[1..]);
    } else {
      assert kept + segments == kept;
    }
  }

  lemma NormalFront(rooted: bool, segments: seq<string>)
    requires Normal(rooted, segments) && segments != []
    ensures Join(segments) != "" && !Rooted(Join(segments)) && NoSlashes(segments) && Join(segments) != "."
  {
    assert NormalAt(rooted, segments, 0);
    assert forall i | 0 <= i < |segments| :: NormalAt(rooted, segments, i) ==> NoSlash(segments[i]);
    assert Join(segments)[0] == segments[0][0] && segments[0][0] in segments[0];
    if |segments| > 1 {
      assert Join(segments)[|segments[0]|] == '/';
    }
  }

  /** The segments of a rendered path, apart from a leading empty one, are the given ones. */
  lemma RenderedSegments(rooted: bool, segments: seq<string>)
    requires Normal(rooted, segments)
    ensures var s := Rendered(rooted, segments);
            s != "" && Rooted(s) == rooted && Kept(rooted, [], Split(s)) == segments
  {
    NormalIsKept(rooted, [], segments);
    assert [] + segments == segments;
    if segments == [] {
      assert Kept(true, [], ["", ""]) == [] by { assert ["", ""][1..] == [""]; }
      assert Split("/") == ["", ""];
      SplitPlain(".");
    } else {
      NormalFront(rooted, segments);
      SplitJoin(segments);
      if rooted {
        assert Rendered(true, segments)[1..] == Join(segments);
        hide Join, KindOf;
        assert ([""] + segments)[1..] == segments;
        SkipFirst(segments);
      }
    }
  }

  lemma SkipFirst(segments: seq<string>)
    ensures Kept(true, [], [""] + segments) == Kept(true, [], segments)
  {
    assert ([""] + segments)[0] == "" && ([""] + segments)[1..] == segments;
  }

  lemma CleanHasNormalForm(s: string) returns (segments: seq<string>)
    ensures segments == Kept(Rooted(s), [], Split(s)) && Normal(Rooted(s), segments)
    ensures Clean(s) == Rendered(Rooted(s), segments)
  {
    SplitSegments(s);
    segments := Kept(Rooted(s), [], Split(s));
    KeptIsNormal(Rooted(s), [], Split(s));
  }

  /** Cleaning a clean path changes nothing. */
  lemma CleanIsIdempotent(s: string)
    ensures Clean(Clean(s)) == Clean(s)
  {
    var segments := CleanHasNormalForm(s);
    RenderedSegments(Rooted(s), segments);
    hide Kept, Rendered, Split, Normal;
  }

  // ----- acceptance -------------------------------------------------------------------------

  predicate Contains(s: string, part: string) {
    exists i: nat | i <= |s| - |part| :: At(s, part, i)
  }

  predicate At(s: string, part: string, i: nat)
    requires i <= |s| - |part|
  {
    s[i..i + |part|] == part
  }

  /** The clean and traversal checks of the validator. */
  predicate PassesChecks(name: string) {
    && Clean(name) != "." && Clean(name) == name
    && !("../" <= name) && name != ".." && !Contains(name, "/../")
  }

  ghost predicate PlainAll(segments: seq<string>) {
    forall i | 0 <= i < |segments| :: Plain(segments[i])
  }

  ghost predicate AllPlain(name: string) { PlainAll(Split(name)) }

  /** Plain segments may follow normal ones. */
  lemma PlainAfterNormal(rooted: bool, segments: seq<string>, plain: seq<string>)
    requires Normal(rooted, segments) && PlainAll(plain) && NoSlashes(plain)
    ensures Normal(rooted, segments + plain)
  {
    hide NoSlash, KindOf;
    var all := segments + plain;
    forall i | 0 <= i < |all| ensures NormalAt(rooted, all, i) {
      if i < |segments| { assert NormalAt(rooted, segments, i); } else { assert Plain(plain[i - |segments|]); }
    }
  }

  lemma PlainIsNormal(rooted: bool, name: string)
    requires AllPlain(name)
    ensures Normal(rooted, Split(name)) && NoSlashes(Split(name)) && Join(Split(name)) == name
    ensures Clean(name) == name && !Rooted(name) && name != "" && name != "."
  {
    SplitSegments(name);
    JoinSplit(name);
    PlainAfterNormal(rooted, [], Split(name));
    PlainAfterNormal(false, [], Split(name));
    assert [] + Split(name) == Split(name);
    NormalFront(false, Split(name));
    RenderedSegments(false, Split(name));
  }

  /** The checks on the whole name hold exactly when every segment is plain. */
  lemma ChecksMeanPlainSegments(name: string)
    requires name != "" && !Rooted(name)
    ensures PassesChecks(name) <==> AllPlain(name)
  {
    hide Clean, Contains, Split, AllPlain;
    if AllPlain(name) {
      PlainIsNormal(false, name);
      NoTraversal(name);
    }
    if PassesChecks(name) { ChecksGivePlainSegments(name); }
  }

  lemma DotDotSegment(a: seq<string>, b: seq<string>)
    ensures !PlainAll(a + [".."] + b)
  {
    assert (a + [".."] + b)[|a|] == "..";
  }

  lemma FrontDotDot(name: string)
    requires "../" <= name
    ensures !AllPlain(name)
  {
    SplitConcat("..", name[3..]);
    assert name == ".." + "/" + name[3..];
    SplitPlain("..");
    DotDotSegment([], Split(name[3..]));
    hide PlainAll, Split;
    assert [] + [".."] + Split(name[3..]) == [".."] + Split(name[3..]);
  }

  lemma InnerDotDot(name: string, i: nat)
    requires i + 4 <= |name| && name[i..i + 4] == "/../"
    ensures !AllPlain(name)
  {
    var a, b := name[..i], name[i + 4..];
    assert name == name[..i] + name[i..i + 4] + name[i + 4..];
    assert name == a + "/" + (".." + "/" + b);
    SplitConcat(a, ".." + "/" + b);
    SplitConcat("..", b);
    SplitPlain("..");
    DotDotSegment(Split(a), Split(b));
    hide PlainAll, Split;
    assert Split(a) + ([".."] + Split(b)) == Split(a) + [".."] + Split(b);
  }

  lemma NoTraversal(name: string)
    requires AllPlain(name)
    ensures name != ".." && !("../" <= name) && !Contains(name, "/../")
  {
    SplitPlain("..");
    DotDotSegment([], []);
    assert [] + [".."] + [] == [".."];
    hide PlainAll, Split;
    if "../" <= name { FrontDotDot(name); }
    if Contains(name, "/../") {
      var i: nat :| i <= |name| - 4 && At(name, "/../", i);
      InnerDotDot(name, i);
    }
  }

  lemma DotDotInFront(segments: seq<string>)
    requires segments != [] && KindOf(segments[0]) == Up
    ensures Join(segments) == ".." || "../" <= Join(segments)
  {
    if |segments| > 1 { assert Join(segments) == ".." + "/" + Join(segments[1..]); }
  }

  lemma ChecksGivePlainSegments(name: string)
    requires name != "" && !Rooted(name) && PassesChecks(name)
    ensures AllPlain(name)
  {
    var segments := CleanHasNormalForm(name);
    hide Clean, Contains, Split, Kept, KindOf;
    NormalFront(false, segments);
    SplitJoin(segments);
    if KindOf(segments[0]) == Up { DotDotInFront(segments); }
    NoDotDot(segments, |segments|);
    assert segments[..|segments|] == segments;
  }

  lemma {:induction false} NoDotDot(segments: seq<string>, n: nat)
    requires Normal(false, segments) && 0 < n <= |segments| && KindOf(segments[0]) != Up
    ensures PlainAll(segments[..n])
  {
    hide KindOf, NoSlash;
    assert NormalAt(false, segments, 0);
    if n > 1 {
      NoDotDot(segments, n - 1);
      assert segments[n - 2] == segments[..n - 1][n - 2];
      assert Plain(segments[n - 2]) && NormalAt(false, segments, n - 1);
    }
  }

  datatype Rejection = PathRequired | AbsolutePath | NotClean | Traversal | TooLong | SegmentRejected | Reserved

  function Slashed(name: string): (r: string)
    ensures |r| == |name| && forall i | 0 <= i < |r| :: r[i] == if name[i] == '\\' then '/' else name[i]
  {
    if name == "" then "" else [if name[0] == '\\' then '/' else name[0]] + Slashed(name[1..])
  }

  predicate NoneReserved(segments: seq<string>, reserved: string -> bool) {
    forall i | 0 <= i < |segments| :: !reserved(segments[i])
  }

  /** The outcome of validation in terms of segments. `blank` tells whether only white space
      is left, `reserved` whether a segment is a reserved name. */
  function Verdict(raw: string, maxPathBytes: int, blank: string -> bool, reserved: string -> bool): Result<string, Rejection> {
    var name := Slashed(raw);
    if blank(name) then Err(PathRequired)
    else if Rooted(name) || ':' in name then Err(AbsolutePath)
    else if Clean(name) == "." || Clean(name) != name then Err(NotClean)
    else if !PassesChecks(name) then Err(Traversal)
    else if |name| > maxPathBytes then Err(TooLong)
    else if !NoneReserved(Split(name), reserved) then Err(Reserved)
    else Ok(name)
  }

  /** The validator. Its own check for empty, "." and ".." segments can never fire: the
      checks on the whole name have already excluded them. */
  method ValidateWorkflowRelativePath(raw: string, maxPathBytes: int, blank: string -> bool, reserved: string -> bool)
    returns (r: Result<string, Rejection>)
    requires blank("")
    ensures r == Verdict(raw, maxPathBytes, blank, reserved)
    ensures r != Err(SegmentRejected)
  {
    hide Clean, Contains, Split, KindOf;
    var name := Slashed(raw);
    if blank(name) { return Err(PathRequired); }
    if Rooted(name) || ':' in name { return Err(AbsolutePath); }
    var clean := Clean(name);
    if clean == "." || clean != name { return Err(NotClean); }
    if "../" <= clean || clean == ".." || Contains(clean, "/../") { return Err(Traversal); }
    if |clean| > maxPathBytes { return Err(TooLong); }
    ChecksMeanPlainSegments(name);
    var segments := Split(clean);
    for i := 0 to |segments|
      invariant forall j | 0 <= j < i :: !reserved(segments[j])
    {
      var plain := Plain(segments[i]);
      if !plain { return Err(SegmentRejected); }
      if reserved(segments[i]) { return Err(Reserved); }
    }
    r := Ok(clean);
  }

  /** A name is accepted exactly when, with forward slashes, it is not blank, relative,
      without a colon, short enough, and all its segments are plain and not reserved. */
  lemma AcceptedIff(raw: string, maxPathBytes: int, blank: string -> bool, reserved: string -> bool)
    requires blank("")
    ensures var name := Slashed(raw); var verdict := Verdict(raw, maxPathBytes, blank, reserved);
            && (verdict.Ok? <==>
                  && !blank(name) && !Rooted(name) && ':' !in name && |name| <= maxPathBytes
                  && AllPlain(name) && NoneReserved(Split(name), reserved))
            && (verdict.Ok? ==> verdict.value == name)
  {
    var name := Slashed(raw);
    hide Clean, Contains, AllPlain;
    if name != "" && !Rooted(name) { ChecksMeanPlainSegments(name); }
  }

  lemma {:induction false} SlashedTwice(name: string)
    requires '\\' !in name
    ensures Slashed(name) == name
  {
  }

  /** Validation is idempotent. */
  lemma AcceptedAgain(raw: string, maxPathBytes: int, blank: string -> bool, reserved: string -> bool)
    requires Verdict(raw, maxPathBytes, blank, reserved).Ok?
    ensures var name := Verdict(raw, maxPathBytes, blank, reserved).value;
            Verdict(name, maxPathBytes, blank, reserved) == Ok(name)
  {
    SlashedTwice(Slashed(raw));
  }

  // ----- display and placement ------------------------------------------------------------------

  function Trimmed(name: string): string {
    if Rooted(name) then Trimmed(name[1..]) else name
  }

  function PlainOnes(segments: seq<string>): seq<string> {
    if segments == [] then []
    else
      var rest := PlainOnes(segments[..|segments| - 1]);
      if Plain(segments[|segments| - 1]) then rest + [segments[|segments| - 1]] else rest
  }

  function SafePath(raw: string): string {
    Join(PlainOnes(Split(Trimmed(Slashed(raw)))))
  }

  method SafePackagePath(raw: string) returns (safe: string)
    ensures safe == SafePath(raw)
  {
    var parts := Split(Trimmed(Slashed(raw)));
    var safeParts := [];
    for i := 0 to |parts|
      invariant safeParts == PlainOnes(parts[..i])
    {
      assert parts[..i + 1][..i] == parts[..i];
      if parts[i] == "" || parts[i] == "." || parts[i] == ".." { continue; }
      safeParts := safeParts + [parts[i]];
    }
    assert parts[..|parts|] == parts;
    if |safeParts| == 0 { return ""; }
    safe := Join(safeParts);
  }

  lemma {:induction false} PlainOnesContents(segments: seq<string>)
    requires NoSlashes(segments)
    ensures PlainAll(PlainOnes(segments)) && NoSlashes(PlainOnes(segments))
    ensures PlainAll(segments) ==> PlainOnes(segments) == segments
  {
    hide KindOf, NoSlash;
    if segments != [] {
      var init := segments[..|segments| - 1];
      PlainOnesContents(init);
      assert segments == init + [segments[|segments| - 1]];
    }
  }

  /** A displayed path never escapes: it is empty or all its segments are plain. */
  lemma SafePathIsPlain(raw: string)
    ensures SafePath(raw) == "" || AllPlain(SafePath(raw))
  {
    var parts := Split(Trimmed(Slashed(raw)));
    SplitSegments(Trimmed(Slashed(raw)));
    PlainOnesContents(parts);
    if PlainOnes(parts) != [] { SplitJoin(PlainOnes(parts)); }
    hide Split, PlainAll;
  }

  /** It is the identity on accepted paths, and on no other non-empty path. */
  lemma SafePathIsIdentityIff(name: string)
    requires name != ""
    ensures SafePath(name) == name <==> AllPlain(name) && '\\' !in name
  {
    if AllPlain(name) && '\\' !in name {
      SlashedTwice(name);
      PlainIsNormal(false, name);
      PlainOnesContents(Split(name));
    }
    if SafePath(name) == name {
      SafePathIsPlain(name);
      NoBackslash(name);
    }
  }

  /** No character of the displayed path is new, except the separators. */
  lemma NoBackslash(raw: string)
    ensures '\\' !in SafePath(raw)
  {
    var name := Trimmed(Slashed(raw));
    TrimmedWithout(Slashed(raw), '\\');
    SplitWithout(name, '\\');
    PlainOnesWithout(Split(name), '\\');
    JoinWithout(PlainOnes(Split(name)), '\\');
  }

  ghost predicate Without(segments: seq<string>, c: char) {
    forall i | 0 <= i < |segments| :: c !in segments[i]
  }

  lemma {:induction false} TrimmedWithout(s: string, c: char)
    requires c !in s
    ensures c !in Trimmed(s)
  {
    if Rooted(s) { TrimmedWithout(s[1..], c); }
  }

  lemma {:induction false} SplitWithout(s: string, c: char)
    requires c !in s
    ensures Without(Split(s), c)
  {
    if s != "" { SplitWithout(s[1..], c); }
  }

  lemma {:induction false} PlainOnesWithout(segments: seq<string>, c: char)
    requires Without(segments, c)
    ensures Without(PlainOnes(segments), c)
  {
    if segments != [] { PlainOnesWithout(segments[..|segments| - 1], c); }
  }

  lemma {:induction false} JoinWithout(segments: seq<string>, c: char)
    requires Without(segments, c) && c != '/'
    ensures c !in Join(segments)
  {
    if |segments| > 1 { JoinWithout(segments[1..], c); }
  }

  /** Placing an accepted path under a clean root keeps the root as prefix; the roots "."
      and "/" disappear into the path. */
  lemma PlacedUnderRoot(root: string, name: string)
    requires root != "" && Clean(root) == root && AllPlain(name)
    ensures Clean(root + "/" + name) ==
            if root == "." then name else if root == "/" then "/" + name else root + "/" + name
  {
    hide KindOf, NoSlash, Split, Kept, Normal;
    var rooted := Rooted(root);
    var segments := CleanHasNormalForm(root);
    PlainIsNormal(rooted, name);
    PlainAfterNormal(rooted, segments, Split(name));
    SplitConcat(root, name);
    KeptOfConcat(rooted, [], Split(root), Split(name));
    NormalIsKept(rooted, segments, Split(name));
    assert Rooted(root + "/" + name) == rooted;
    assert Clean(root + "/" + name) == Rendered(rooted, segments + Split(name));
    if segments == [] {
      assert segments + Split(name) == Split(name);
      assert root == if rooted then "/" else ".";
    } else {
      NormalFront(rooted, segments);
      JoinConcat(segments, Split(name));
    }
  }

  lemma {:induction false} KeptOfConcat(rooted: bool, kept: seq<string>, a: seq<string>, b: seq<string>)
    ensures Kept(rooted, kept, a + b) == Kept(rooted, Kept(rooted, kept, a), b)
    decreases |a|
  {
    hide Pushed;
    if a == [] {
      assert a + b == b;
    } else {
      assert (a + b)[1..] == a[1..] + b;
      KeptOfConcat(rooted, Pushed(rooted, kept, a[0]), a[1..], b);
    }
  }
}
