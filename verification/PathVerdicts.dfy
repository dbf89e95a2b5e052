/** Why a relative name is refused, and what is left of a displayed path, told from its
    characters and segments. */
module PathVerdicts {
  import opened Common
  import opened PackagePath

  /** A segment that names something. */
  predicate Ordinary(segment: string) { segment != "" && segment != "." && segment != ".." }

  ghost predicate AllOrdinary(segments: seq<string>) {
    forall i | 0 <= i < |segments| :: Ordinary(segments[i])
  }

  /** Some ".." in front, and then only ordinary segments. */
  ghost predicate UpsThenOrdinary(segments: seq<string>, k: nat) {
    && k <= |segments|
    && (forall i | 0 <= i < k :: segments[i] == "..")
    && (forall i | k <= i < |segments| :: Ordinary(segments[i]))
  }

  lemma KindMeans(segment: string)
    ensures KindOf(segment) == Name <==> Ordinary(segment)
    ensures KindOf(segment) == Up <==> segment == ".."
  {
  }

  lemma {:induction false} NormalHasUps(segments: seq<string>) returns (k: nat)
    requires Normal(false, segments)
    ensures UpsThenOrdinary(segments, k)
  {
    if segments == [] {
      k := 0;
    } else {
      var init, last := segments[..|segments| - 1], segments[|segments| - 1];
      NormalPrefix(segments);
      k := NormalHasUps(init);
      assert NormalAt(false, segments, |segments| - 1);
      KindMeans(last);
      if last == ".." {
        if |segments| > 1 { KindMeans(segments[|segments| - 2]); }
        k := |segments|;
      }
    }
  }

  lemma NormalPrefix(segments: seq<string>)
    requires Normal(false, segments) && segments != []
    ensures Normal(false, segments[..|segments| - 1])
  {
    var init := segments[..|segments| - 1];
    forall i | 0 <= i < |init| ensures NormalAt(false, init, i) { assert NormalAt(false, segments, i); }
  }

  lemma UpsAreNormal(segments: seq<string>, k: nat)
    requires UpsThenOrdinary(segments, k) && NoSlashes(segments)
    ensures Normal(false, segments)
  {
    forall i | 0 <= i < |segments| ensures NormalAt(false, segments, i) {
      KindMeans(segments[i]);
      if i > 0 { KindMeans(segments[i - 1]); }
    }
  }

  /** A relative name is its own clean form exactly if it has this shape. */
  lemma CleanMeans(name: string)
    requires name != "" && !Rooted(name)
    ensures Clean(name) == name && name != "." <==> exists k :: UpsThenOrdinary(Split(name), k)
  {
    hide KindOf, NoSlash, Normal;
    SplitSegments(name);
    JoinSplit(name);
    var segments := CleanHasNormalForm(name);
    if Clean(name) == name && name != "." {
      if segments != [] { NormalFront(false, segments); SplitJoin(segments); }
      var k := NormalHasUps(segments);
    }
    if k: nat :| UpsThenOrdinary(Split(name), k) {
      UpsAreNormal(Split(name), k);
      assert [] + Split(name) == Split(name);
      NormalIsKept(false, [], Split(name));
      DotIsNot(name, k);
    }
  }

  lemma DotIsNot(name: string, k: nat)
    requires UpsThenOrdinary(Split(name), k)
    ensures name != "."
  {
    SplitPlain(".");
    assert Split(".")[0] == "." && !Ordinary(".");
  }

  /** Every verdict of the validator: the first of these reasons that applies, in the order in
      which they are listed; ".." in front is traversal, any other segment that is not ordinary
      is not clean. */
  lemma VerdictMeans(raw: string, maxPathBytes: int, blank: string -> bool, reserved: string -> bool)
    requires blank("")
    ensures var name := Slashed(raw); var segments := Split(name); var verdict := Verdict(raw, maxPathBytes, blank, reserved);
            if blank(name) then verdict == Err(PathRequired)
            else if name[0] == '/' || ':' in name then verdict == Err(AbsolutePath)
            else if !AllOrdinary(segments) then
              verdict == Err(if exists k :: UpsThenOrdinary(segments, k) then Traversal else NotClean)
            else if |name| > maxPathBytes then verdict == Err(TooLong)
            else if exists i | 0 <= i < |segments| :: reserved(segments[i]) then verdict == Err(Reserved)
            else verdict == Ok(name)
  {
    hide Clean, Contains, Split, UpsThenOrdinary, AllOrdinary, PassesChecks;
    var name := Slashed(raw);
    if !blank(name) && !Rooted(name) {
      CleanMeans(name);
      ChecksMean(name);
      var segments := Split(name);
      if AllOrdinary(segments) { NoUps(segments); }
    }
  }

  lemma NoUps(segments: seq<string>)
    requires AllOrdinary(segments)
    ensures UpsThenOrdinary(segments, 0)
  {
  }

  lemma ChecksMean(name: string)
    requires name != "" && !Rooted(name)
    ensures PassesChecks(name) <==> AllOrdinary(Split(name))
  {
    hide Clean, Contains, Split, PassesChecks, PlainAll, AllOrdinary;
    ChecksMeanPlainSegments(name);
    PlainMeans(Split(name));
    assert AllPlain(name) <==> PlainAll(Split(name));
  }

  lemma PlainMeans(segments: seq<string>)
    ensures PlainAll(segments) <==> AllOrdinary(segments)
  {
    forall i | 0 <= i < |segments| ensures Plain(segments[i]) <==> Ordinary(segments[i]) { KindMeans(segments[i]); }
    hide KindOf, Ordinary;
  }

  /** A name is its segments with slashes between them, and no segment has one. */
  lemma SegmentsOfName(name: string)
    ensures var segments := Split(name);
            && Join(segments) == name && segments != []
            && forall i | 0 <= i < |segments| :: '/' !in segments[i]
  {
    JoinSplit(name);
    SplitSegments(name);
    hide Split, Join;
    assert forall i | 0 <= i < |Split(name)| :: NoSlash(Split(name)[i]);
  }

  /** Joining puts one slash between neighbours, and nothing else. */
  lemma JoinMeans(a: seq<string>, b: seq<string>, segment: string)
    ensures Join([]) == "" && Join([segment]) == segment
    ensures a != [] && b != [] ==> Join(a + b) == Join(a) + ['/'] + Join(b)
  {
    if a != [] && b != [] { JoinConcat(a, b); }
  }

  /** Trimming takes the slashes in front away, all of them and nothing else. */
  lemma {:induction false} TrimmedMeans(name: string)
    ensures var t := Trimmed(name); var n := |name| - |t|;
            && n >= 0 && t == name[n..] && (forall i | 0 <= i < n :: name[i] == '/') && (t == "" || t[0] != '/')
  {
    if Rooted(name) { TrimmedMeans(name[1..]); }
  }

  /** The displayed path keeps the ordinary segments, in order: it is put together from the
      parts of any split of them. */
  lemma {:induction false} OrdinaryOnes(a: seq<string>, b: seq<string>, segment: string)
    ensures PlainOnes([segment]) == if Ordinary(segment) then [segment] else []
    ensures PlainOnes(a + b) == PlainOnes(a) + PlainOnes(b) && PlainOnes([]) == []
  {
    assert [segment][..0] == [];
    if b == [] {
      assert a + b == a;
    } else {
      OrdinaryOnes(a, b[..|b| - 1], segment);
      assert (a + b)[..|a + b| - 1] == a + b[..|b| - 1];
    }
  }

  /** Exactly the ordinary segments are displayed. */
  lemma SafePathMeans(raw: string)
    ensures forall segment :: segment in PlainOnes(Split(Trimmed(Slashed(raw)))) <==>
              segment in Split(Trimmed(Slashed(raw))) && Ordinary(segment)
  {
    OrdinaryMembers(Split(Trimmed(Slashed(raw))));
  }

  lemma {:induction false} OrdinaryMembers(segments: seq<string>)
    ensures forall segment :: segment in PlainOnes(segments) <==> segment in segments && Ordinary(segment)
  {
    if segments != [] {
      var init, last := segments[..|segments| - 1], segments[|segments| - 1];
      OrdinaryMembers(init);
      KindMeans(last);
      assert segments == init + [last];
    }
  }
}
