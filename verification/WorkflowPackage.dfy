/** Making a workflow package canonical: sort its files by path, check them one by one, and
    list what the fingerprint is computed from. The sort is the library's and need not be
    stable, so its result is any sorted rearrangement of the input. */
module WorkflowPackage {
  import opened Common

  datatype File = File(path: string, contents: string, sizeBytes: nat, sha256: string, executable: bool)

  datatype Limits = Limits(maxFiles: int, maxTotalBytes: int, maxReferenceBytes: int)

  datatype Rejection =
    | PackageEmpty
    | TooManyFiles
    | DuplicatePath(path: string)
    | PackageTooLarge
    | ReferenceTooLarge(path: string)
    | SecretLike(path: string)
    | ConfigMissing

  datatype Entry = Entry(path: string, sizeBytes: nat, sha256: string, executable: bool)

  /** What the fingerprint is a function of: the entries in order. */
  datatype Package = Package(files: seq<File>, totalSizeBytes: nat, payload: seq<Entry>)

  // ----- the order of paths ----------------------------------------------------------------

  /** The byte-wise order of strings. */
  predicate Less(a: string, b: string) {
    b != "" && (a == "" || a[0] < b[0] || (a[0] == b[0] && Less(a[1..], b[1..])))
  }

  lemma {:induction false} LessTotal(a: string, b: string)
    ensures a == b || Less(a, b) || Less(b, a)
  {
    if a != "" && b != "" && a[0] == b[0] {
      LessTotal(a[1..], b[1..]);
      assert a == [a[0]] + a[1..] && b == [b[0]] + b[1..];
    }
  }

  /** Where they differ first, the smaller one has the smaller character or ends. */
  ghost predicate SmallerAt(a: string, b: string, k: nat) {
    && k <= |a| && k < |b| && a[..k] == b[..k]
    && (k == |a| || a[k] < b[k])
  }

  lemma {:induction false} LessIff(a: string, b: string)
    ensures Less(a, b) <==> exists k :: SmallerAt(a, b, k)
  {
    if b != "" && a != "" && a[0] == b[0] {
      LessIff(a[1..], b[1..]);
      forall k: nat | SmallerAt(a[1..], b[1..], k) ensures SmallerAt(a, b, k + 1) { SmallerFurther(a, b, k); }
      forall k: nat | SmallerAt(a, b, k) ensures k > 0 && SmallerAt(a[1..], b[1..], k - 1) { SmallerSooner(a, b, k); }
    } else if Less(a, b) {
      assert SmallerAt(a, b, 0);
    } else {
      forall k: nat ensures !SmallerAt(a, b, k) { NotSmaller(a, b, k); }
    }
  }

  lemma SmallerFurther(a: string, b: string, k: nat)
    requires a != "" && b != "" && a[0] == b[0] && SmallerAt(a[1..], b[1..], k)
    ensures SmallerAt(a, b, k + 1)
  {
    assert a[..k + 1] == [a[0]] + a[1..][..k] && b[..k + 1] == [b[0]] + b[1..][..k];
  }

  lemma SmallerSooner(a: string, b: string, k: nat)
    requires a != "" && b != "" && a[0] == b[0] && SmallerAt(a, b, k)
    ensures k > 0 && SmallerAt(a[1..], b[1..], k - 1)
  {
    if k > 0 { assert a[1..][..k - 1] == a[..k][1..] && b[1..][..k - 1] == b[..k][1..]; }
  }

  lemma NotSmaller(a: string, b: string, k: nat)
    requires a == "" || b == "" || a[0] != b[0]
    requires !Less(a, b)
    ensures !SmallerAt(a, b, k)
  {
    if 0 < k <= |a| && k < |b| { assert a[..k][0] == a[0] && b[..k][0] == b[0]; }
  }

  ghost predicate Sorted(files: seq<File>) {
    forall i, j | 0 <= i < j < |files| :: !Less(files[j].path, files[i].path)
  }

  ghost predicate SortOf(files: seq<File>, sorted: seq<File>) {
    multiset(files) == multiset(sorted) && Sorted(sorted)
  }

  ghost predicate DistinctPaths(files: seq<File>) {
    forall i, j | 0 <= i < j < |files| :: files[i].path != files[j].path
  }

  lemma TailMultiset(files: seq<File>)
    requires files != []
    ensures multiset(files[1..]) == multiset(files) - multiset{files[0]}
  {
    assert files == [files[0]] + files[1..];
  }

  lemma SameSize(s: seq<File>, t: seq<File>)
    requires multiset(s) == multiset(t)
    ensures |s| == |t|
  {
    assert |multiset(s)| == |s| && |multiset(t)| == |t|;
  }

  lemma FirstIsFirst(s: seq<File>, t: seq<File>)
    requires multiset(s) == multiset(t) && Sorted(s) && Sorted(t) && DistinctPaths(s) && s != [] && t != []
    ensures s[0] == t[0]
  {
    assert s[0] in multiset(t) && t[0] in multiset(s);
    var j :| 0 <= j < |t| && t[j] == s[0];
    var i :| 0 <= i < |s| && s[i] == t[0];
    LessTotal(s[0].path, t[0].path);
    if i > 0 { assert s[0].path != s[i].path; }
  }

  /** Two sorted arrangements of the same files are the same when no path occurs twice. */
  lemma {:induction false} SortedIsUnique(s: seq<File>, t: seq<File>)
    requires multiset(s) == multiset(t) && Sorted(s) && Sorted(t) && DistinctPaths(s)
    ensures s == t
  {
    SameSize(s, t);
    if s != [] {
      FirstIsFirst(s, t);
      TailMultiset(s);
      TailMultiset(t);
      SortedIsUnique(s[1..], t[1..]);
      assert s == [s[0]] + s[1..] && t == [t[0]] + t[1..];
    }
  }

  // ----- the checks -----------------------------------------------------------------------------

  function TotalSize(files: seq<File>): nat {
    if files == [] then 0 else TotalSize(files[..|files| - 1]) + files[|files| - 1].sizeBytes
  }

  predicate HasConfig(files: seq<File>) {
    exists i | 0 <= i < |files| :: files[i].path == "config.toml"
  }

  predicate SeenBefore(files: seq<File>, i: nat, lower: string -> string)
    requires i < |files|
  {
    exists j | 0 <= j < i :: lower(files[j].path) == lower(files[i].path)
  }

  predicate IsReference(file: File) { "references/" <= file.path }

  /** What the file at `i` of the sorted list fails first, if anything. */
  function Fault(files: seq<File>, i: nat, limits: Limits, lower: string -> string, leaks: File -> bool): Option<Rejection>
    requires i < |files|
  {
    var file := files[i];
    if SeenBefore(files, i, lower) then Some(DuplicatePath(file.path))
    else if TotalSize(files[..i + 1]) > limits.maxTotalBytes then Some(PackageTooLarge)
    else if IsReference(file) && file.sizeBytes > limits.maxReferenceBytes then Some(ReferenceTooLarge(file.path))
    else if leaks(file) then Some(SecretLike(file.path))
    else None
  }

  function FirstFault(files: seq<File>, i: nat, limits: Limits, lower: string -> string, leaks: File -> bool): Option<Rejection>
    requires i <= |files|
    decreases |files| - i
  {
    if i == |files| then None
    else
      var fault := Fault(files, i, limits, lower, leaks);
      if fault.Some? then fault else FirstFault(files, i + 1, limits, lower, leaks)
  }

  function Payload(files: seq<File>): (r: seq<Entry>)
    ensures |r| == |files|
    ensures forall i | 0 <= i < |r| :: r[i] == Entry(files[i].path, files[i].sizeBytes, files[i].sha256, files[i].executable)
  {
    if files == [] then []
    else
      var last := files[|files| - 1];
      Payload(files[..|files| - 1]) + [Entry(last.path, last.sizeBytes, last.sha256, last.executable)]
  }

  function Finalized(sorted: seq<File>, limits: Limits, lower: string -> string, leaks: File -> bool): Result<Package, Rejection> {
    if sorted == [] then Err(PackageEmpty)
    else if |sorted| > limits.maxFiles then Err(TooManyFiles)
    else
      var fault := FirstFault(sorted, 0, limits, lower, leaks);
      if fault.Some? then Err(fault.value)
      else if !HasConfig(sorted) then Err(ConfigMissing)
      else Ok(Package(sorted, TotalSize(sorted), Payload(sorted)))
  }

  /** The loop over the sorted files. `lower` folds case, `leaks` looks for secrets. */
  method FinalizeWorkflowPackage(files: seq<File>, sorted: seq<File>, limits: Limits, lower: string -> string, leaks: File -> bool)
    returns (r: Result<Package, Rejection>)
    requires SortOf(files, sorted)
    ensures r == Finalized(sorted, limits, lower, leaks)
    ensures r.Ok? ==> multiset(r.value.files) == multiset(files)
  {
    SameSize(files, sorted);
    if |files| == 0 { return Err(PackageEmpty); }
    if |files| > limits.maxFiles { return Err(TooManyFiles); }
    var seen: set<string> := {};
    var total := 0;
    var hasConfig := false;
    for i := 0 to |sorted|
      invariant forall s :: s in seen <==> exists j | 0 <= j < i :: lower(sorted[j].path) == s
      invariant total == TotalSize(sorted[..i])
      invariant hasConfig <==> HasConfig(sorted[..i])
      invariant FirstFault(sorted, i, limits, lower, leaks) == FirstFault(sorted, 0, limits, lower, leaks)
    {
      var file := sorted[i];
      assert sorted[..i + 1][..i] == sorted[..i];
      if lower(file.path) in seen { return Err(DuplicatePath(file.path)); }
      seen := seen + {lower(file.path)};
      if file.path == "config.toml" { hasConfig := true; }
      ConfigSoFar(sorted, i);
      total := total + file.sizeBytes;
      if total > limits.maxTotalBytes { return Err(PackageTooLarge); }
      if IsReference(file) && file.sizeBytes > limits.maxReferenceBytes { return Err(ReferenceTooLarge(file.path)); }
      if leaks(file) { return Err(SecretLike(file.path)); }
    }
    assert sorted[..|sorted|] == sorted;
    if !hasConfig { return Err(ConfigMissing); }
    var payload := FingerprintPayload(sorted);
    r := Ok(Package(sorted, total, payload));
  }

  lemma ConfigSoFar(files: seq<File>, i: nat)
    requires i < |files|
    ensures HasConfig(files[..i + 1]) <==> HasConfig(files[..i]) || files[i].path == "config.toml"
  {
    if HasConfig(files[..i]) {
      var j :| 0 <= j < i && files[..i][j].path == "config.toml";
      assert files[..i + 1][j].path == "config.toml";
    }
    if files[i].path == "config.toml" { assert files[..i + 1][i].path == "config.toml"; }
    if HasConfig(files[..i + 1]) && files[i].path != "config.toml" {
      var j :| 0 <= j < i + 1 && files[..i + 1][j].path == "config.toml";
      assert files[..i][j].path == "config.toml";
    }
  }

  method FingerprintPayload(files: seq<File>) returns (payload: seq<Entry>)
    ensures payload == Payload(files)
  {
    payload := [];
    for i := 0 to |files|
      invariant |payload| == i
      invariant forall j | 0 <= j < i ::
                  payload[j] == Entry(files[j].path, files[j].sizeBytes, files[j].sha256, files[j].executable)
    {
      payload := payload + [Entry(files[i].path, files[i].sizeBytes, files[i].sha256, files[i].executable)];
    }
  }

  // ----- order independence ------------------------------------------------------------------------

  lemma {:induction false} NoFaultMeansNone(files: seq<File>, i: nat, limits: Limits, lower: string -> string, leaks: File -> bool)
    requires i <= |files| && FirstFault(files, i, limits, lower, leaks).None?
    ensures forall k | i <= k < |files| :: Fault(files, k, limits, lower, leaks).None?
    decreases |files| - i
  {
    if i < |files| { NoFaultMeansNone(files, i + 1, limits, lower, leaks); }
  }

  lemma {:induction false} NoneMeansNoFault(files: seq<File>, i: nat, limits: Limits, lower: string -> string, leaks: File -> bool)
    requires i <= |files| && forall k | i <= k < |files| :: Fault(files, k, limits, lower, leaks).None?
    ensures FirstFault(files, i, limits, lower, leaks).None?
    decreases |files| - i
  {
    if i < |files| { NoneMeansNoFault(files, i + 1, limits, lower, leaks); }
  }

  lemma {:induction false} TotalOfPrefix(files: seq<File>, i: nat)
    requires i <= |files|
    ensures TotalSize(files[..i]) <= TotalSize(files)
  {
    if i < |files| {
      TotalOfPrefix(files[..|files| - 1], i);
      assert files[..|files| - 1][..i] == files[..i];
    } else {
      assert files[..i] == files;
    }
  }

  /** All that is asked of a package, without an order: it has some but not too many files,
      all paths differ even without case, the total and the references fit, nothing leaks,
      and the configuration is there. */
  ghost predicate Acceptable(files: seq<File>, limits: Limits, lower: string -> string, leaks: File -> bool) {
    && 0 < |files| <= limits.maxFiles && (exists i | 0 <= i < |files| :: files[i].path == "config.toml")
    && TotalSize(files) <= limits.maxTotalBytes
    && (forall i, j | 0 <= i < j < |files| :: lower(files[i].path) != lower(files[j].path))
    && forall i | 0 <= i < |files| :: FileFits(files[i], limits, leaks)
  }

  predicate FileFits(file: File, limits: Limits, leaks: File -> bool) {
    !leaks(file) && ("references/" <= file.path ==> file.sizeBytes <= limits.maxReferenceBytes)
  }

  lemma AcceptableHasNoFault(files: seq<File>, k: nat, limits: Limits, lower: string -> string, leaks: File -> bool)
    requires Acceptable(files, limits, lower, leaks) && k < |files|
    ensures Fault(files, k, limits, lower, leaks).None?
  {
    hide TotalSize, HasConfig;
    TotalOfPrefix(files, k + 1);
    assert FileFits(files[k], limits, leaks);
  }

  lemma FaultlessFits(files: seq<File>, limits: Limits, lower: string -> string, leaks: File -> bool)
    requires files != [] && forall k | 0 <= k < |files| :: Fault(files, k, limits, lower, leaks).None?
    ensures TotalSize(files) <= limits.maxTotalBytes
    ensures forall i | 0 <= i < |files| :: FileFits(files[i], limits, leaks)
  {
    hide TotalSize, SeenBefore;
    assert Fault(files, |files| - 1, limits, lower, leaks).None?;
    assert files[..|files|] == files;
    forall i | 0 <= i < |files| ensures FileFits(files[i], limits, leaks) {
      assert Fault(files, i, limits, lower, leaks).None?;
    }
  }

  /** The checks in order accept exactly the packages that are acceptable as a whole. */
  lemma AcceptedIff(sorted: seq<File>, limits: Limits, lower: string -> string, leaks: File -> bool)
    ensures Finalized(sorted, limits, lower, leaks).Ok? <==> Acceptable(sorted, limits, lower, leaks)
  {
    hide TotalSize, Fault, FileFits;
    if Finalized(sorted, limits, lower, leaks).Ok? {
      NoFaultMeansNone(sorted, 0, limits, lower, leaks);
      AcceptedPathsDistinct(sorted, limits, lower, leaks);
      FaultlessFits(sorted, limits, lower, leaks);
    }
    if Acceptable(sorted, limits, lower, leaks) {
      forall k | 0 <= k < |sorted| ensures Fault(sorted, k, limits, lower, leaks).None? {
        AcceptableHasNoFault(sorted, k, limits, lower, leaks);
      }
      NoneMeansNoFault(sorted, 0, limits, lower, leaks);
    }
  }

  /** Accepted paths are distinct, even when case is folded. */
  lemma AcceptedPathsDistinct(sorted: seq<File>, limits: Limits, lower: string -> string, leaks: File -> bool)
    requires Finalized(sorted, limits, lower, leaks).Ok?
    ensures forall i, j | 0 <= i < j < |sorted| :: lower(sorted[i].path) != lower(sorted[j].path)
    ensures DistinctPaths(sorted)
  {
    NoFaultMeansNone(sorted, 0, limits, lower, leaks);
    assert forall j | 0 <= j < |sorted| :: Fault(sorted, j, limits, lower, leaks).None?;
    forall i, j | 0 <= i < j < |sorted| ensures lower(sorted[i].path) != lower(sorted[j].path) {
      assert Fault(sorted, j, limits, lower, leaks).None?;
    }
  }

  /** Finalizing does not depend on the order of the input files nor on what the sort does
      with equal paths: both inputs are accepted, with the same files, total and fingerprint
      payload, or both are rejected. */
  lemma OrderDoesNotMatter(files: seq<File>, sorted: seq<File>, files': seq<File>, sorted': seq<File>, limits: Limits,
                           lower: string -> string, leaks: File -> bool)
    requires SortOf(files, sorted) && SortOf(files', sorted') && multiset(files) == multiset(files')
    ensures var r := Finalized(sorted, limits, lower, leaks); var r' := Finalized(sorted', limits, lower, leaks);
            (r.Ok? <==> r'.Ok?) && (r.Ok? ==> r == r')
  {
    if Finalized(sorted, limits, lower, leaks).Ok? {
      AcceptedPathsDistinct(sorted, limits, lower, leaks);
      SortedIsUnique(sorted, sorted');
    } else if Finalized(sorted', limits, lower, leaks).Ok? {
      AcceptedPathsDistinct(sorted', limits, lower, leaks);
      SortedIsUnique(sorted', sorted);
    }
  }

  /** The reason of a rejection is the same too, as long as no path is given twice. */
  lemma ReasonIsTheSame(files: seq<File>, sorted: seq<File>, files': seq<File>, sorted': seq<File>, limits: Limits,
                        lower: string -> string, leaks: File -> bool)
    requires SortOf(files, sorted) && SortOf(files', sorted') && multiset(files) == multiset(files')
    requires DistinctPaths(sorted)
    ensures Finalized(sorted, limits, lower, leaks) == Finalized(sorted', limits, lower, leaks)
  {
    SortedIsUnique(sorted, sorted');
  }

  /** With the same path twice it depends on the sort: a leaking copy in front is reported as
      a secret, behind the other copy as a duplicate. */
  lemma ReasonCanDiffer(clean: File, leaky: File, limits: Limits, lower: string -> string, leaks: File -> bool)
    requires clean.path == leaky.path && !leaks(clean) && leaks(leaky) && limits.maxFiles >= 2
    requires clean.sizeBytes <= limits.maxTotalBytes && leaky.sizeBytes <= limits.maxTotalBytes
    requires !IsReference(clean)
    ensures SortOf([clean, leaky], [clean, leaky]) && SortOf([clean, leaky], [leaky, clean])
    ensures Finalized([clean, leaky], limits, lower, leaks) == Err(DuplicatePath(clean.path))
    ensures Finalized([leaky, clean], limits, lower, leaks) == Err(SecretLike(clean.path))
  {
    LessIrreflexive(clean.path);
    var s, t := [clean, leaky], [leaky, clean];
    assert s[..1] == [clean] && t[..1] == [leaky];
    TotalOfOne(clean);
    TotalOfOne(leaky);
    hide Less, TotalSize;
    assert Fault(s, 0, limits, lower, leaks).None?;
    assert lower(s[0].path) == lower(s[1].path);
    assert Fault(s, 1, limits, lower, leaks) == Some(DuplicatePath(clean.path));
    assert FirstFault(s, 0, limits, lower, leaks) == FirstFault(s, 1, limits, lower, leaks);
    assert Fault(t, 0, limits, lower, leaks) == Some(SecretLike(clean.path));
  }

  lemma TotalOfOne(file: File)
    ensures TotalSize([file]) == file.sizeBytes
  {
    assert [file][..0] == [];
  }

  lemma {:induction false} LessIrreflexive(a: string)
    ensures !Less(a, a)
  {
    if a != "" { LessIrreflexive(a[1..]); }
  }

  // ----- the reason of a rejection ---------------------------------------------------------------------

  /** What is wrong with file `k` after the files before it, the first of these. */
  ghost predicate Wrong(files: seq<File>, k: nat, limits: Limits, lower: string -> string, leaks: File -> bool, why: Rejection)
    requires k < |files|
  {
    var again := exists j | 0 <= j < k :: lower(files[j].path) == lower(files[k].path);
    var tooLarge := TotalSize(files[..k + 1]) > limits.maxTotalBytes;
    var longReference := "references/" <= files[k].path && files[k].sizeBytes > limits.maxReferenceBytes;
    match why
    case DuplicatePath(path) => again && path == files[k].path
    case PackageTooLarge => !again && tooLarge
    case ReferenceTooLarge(path) => !again && !tooLarge && longReference && path == files[k].path
    case SecretLike(path) => !again && !tooLarge && !longReference && leaks(files[k]) && path == files[k].path
    case _ => false
  }

  ghost predicate AllRight(files: seq<File>, k: nat, limits: Limits, lower: string -> string, leaks: File -> bool)
    requires k < |files|
  {
    forall why :: !Wrong(files, k, limits, lower, leaks, why)
  }

  lemma FaultIsWrong(files: seq<File>, k: nat, limits: Limits, lower: string -> string, leaks: File -> bool)
    requires k < |files|
    ensures var fault := Fault(files, k, limits, lower, leaks);
            if fault.Some? then Wrong(files, k, limits, lower, leaks, fault.value) else AllRight(files, k, limits, lower, leaks)
  {
    hide TotalSize;
  }

  lemma {:induction false} FirstFaultIsFirst(files: seq<File>, i: nat, limits: Limits, lower: string -> string, leaks: File -> bool)
    returns (k: nat)
    requires i <= |files| && FirstFault(files, i, limits, lower, leaks).Some?
    ensures i <= k < |files| && Wrong(files, k, limits, lower, leaks, FirstFault(files, i, limits, lower, leaks).value)
    ensures forall j | i <= j < k :: AllRight(files, j, limits, lower, leaks)
    decreases |files| - i
  {
    hide Fault, Wrong, AllRight;
    FaultIsWrong(files, i, limits, lower, leaks);
    if Fault(files, i, limits, lower, leaks).Some? {
      k := i;
    } else {
      k := FirstFaultIsFirst(files, i + 1, limits, lower, leaks);
    }
  }

  /** A package is rejected as a whole if it is empty or has too many files; else for the first
      file with something wrong, and for the first thing wrong with it; else for want of a
      configuration. An accepted package lists its files as they are sorted, and their sizes. */
  lemma FinalVerdict(sorted: seq<File>, limits: Limits, lower: string -> string, leaks: File -> bool) returns (k: nat)
    ensures var r := Finalized(sorted, limits, lower, leaks);
            if |sorted| == 0 then r == Err(PackageEmpty)
            else if |sorted| > limits.maxFiles then r == Err(TooManyFiles)
            else if k < |sorted| then
              r.Err? && Wrong(sorted, k, limits, lower, leaks, r.error)
              && forall j | 0 <= j < k :: AllRight(sorted, j, limits, lower, leaks)
            else
              && (forall j | 0 <= j < |sorted| :: AllRight(sorted, j, limits, lower, leaks))
              && (if exists i | 0 <= i < |sorted| :: sorted[i].path == "config.toml"
                  then r == Ok(Package(sorted, TotalSize(sorted), Payload(sorted))) else r == Err(ConfigMissing))
  {
    hide Fault, Wrong, AllRight, TotalSize, Payload;
    k := |sorted|;
    if 0 < |sorted| <= limits.maxFiles {
      if FirstFault(sorted, 0, limits, lower, leaks).Some? {
        k := FirstFaultIsFirst(sorted, 0, limits, lower, leaks);
      } else {
        NoFaultMeansNone(sorted, 0, limits, lower, leaks);
        forall j | 0 <= j < |sorted| ensures AllRight(sorted, j, limits, lower, leaks) {
          FaultIsWrong(sorted, j, limits, lower, leaks);
        }
      }
    }
  }
}
