/** runtime/resolver.go: which directory a runtime specification means, in the first pass over the
    runtimes directory, and the choice of the latest version. */
module Resolver {
  import opened Wrappers
  import opened Semver

  datatype Candidate = Candidate(path: string, version: string)

  // --- findLatestVersion ---

  predicate Parses(v: Candidate) { NewVersion(v.version).Ok? }

  // v is a later version than other.
  predicate Later(v: Candidate, other: Candidate) {
    Parses(v) && Parses(other) && GreaterThan(NewVersion(v.version).value, NewVersion(other.version).value)
  }

  // k is the first of the candidates with the highest version that parses.
  predicate IsLatest(versions: seq<Candidate>, k: nat) {
    && k < |versions| && Parses(versions[k])
    && (forall j :: 0 <= j < |versions| ==> !Later(versions[j], versions[k]))
    && (forall j :: 0 <= j < k && Parses(versions[j]) ==> Later(versions[k], versions[j]))
  }

  // The first path that is not empty among the candidates whose version does not parse.
  function Fallback(versions: seq<Candidate>): string {
    if versions == [] then ""
    else
      var earlier, v := Fallback(versions[..|versions| - 1]), versions[|versions| - 1];
      if earlier != "" || Parses(v) then earlier else v.path
  }

  // The path of the first candidate of highest version, or the fallback if that path is empty or no
  // version parses. Only the candidates after the latest one still count for the fallback.
  ghost predicate IsLatestPath(versions: seq<Candidate>, path: string) {
    if exists v :: v in versions && Parses(v) then
      exists k: nat :: IsLatest(versions, k) && path == PathFrom(versions, k, |versions|)
    else path == Fallback(versions)
  }

  function PathFrom(versions: seq<Candidate>, k: nat, end: nat): string
    requires k < end <= |versions|
  {
    if versions[k].path != "" then versions[k].path else Fallback(versions[k + 1..end])
  }

  method FindLatestVersion(versions: seq<Candidate>) returns (latestPath: string)
    ensures IsLatestPath(versions, latestPath)
  {
    hide IsLatest, Parses, GreaterThan, NewVersion, Fallback, PathFrom;
    NothingFallsBack();
    if |versions| == 0 {
      return "";
    }
    if |versions| == 1 {
      OnlyOne(versions);
      return versions[0].path;
    }
    var latestSemver: Option<Version> := None;
    latestPath := "";
    ghost var best: nat := 0;
    for i := 0 to |versions|
      invariant latestSemver.None? ==> (forall j :: 0 <= j < i ==> !Parses(versions[j])) && latestPath == Fallback(versions[..i])
      invariant latestSemver.Some? ==> best < i && IsLatest(versions[..i], best) && NewVersion(versions[best].version) == Ok(latestSemver.value)
      invariant latestSemver.Some? ==> latestPath == PathFrom(versions, best, i)
    {
      var v := versions[i];
      var sv := NewVersion(v.version);
      ParsesIs(v);
      FallbackNext(versions, 0, i);
      PathNext(versions, i);
      if sv.Err? {
        SkipUnparsed(versions, i, best);
        if latestPath == "" {
          latestPath := v.path;
        }
        continue;
      }
      if latestSemver.None? {
        FirstParsed(versions, i);
      } else {
        NextParsed(versions, i, best);
        LaterIs(v, versions[best]);
      }
      if latestSemver.None? || GreaterThan(sv.value, latestSemver.value) {
        latestSemver := Some(sv.value);
        latestPath := v.path;
        best := i;
      }
    }
    assert versions[..|versions|] == versions;
    if latestSemver.Some? {
      LatestIsThere(versions, best);
    }
  }

  lemma ParsesIs(v: Candidate)
    ensures Parses(v) <==> NewVersion(v.version).Ok?
  {
  }

  lemma LaterIs(v: Candidate, other: Candidate)
    requires NewVersion(v.version).Ok? && NewVersion(other.version).Ok?
    ensures Later(v, other) <==> GreaterThan(NewVersion(v.version).value, NewVersion(other.version).value)
  {
  }

  lemma OnlyOne(versions: seq<Candidate>)
    requires |versions| == 1
    ensures IsLatestPath(versions, versions[0].path)
  {
    assert versions[..1] == versions && versions[..0] == [] && versions[1..] == [];
    if Parses(versions[0]) {
      FirstParsed(versions, 0);
    } else {
      assert forall v :: v in versions ==> v == versions[0];
    }
  }

  lemma FallbackNext(versions: seq<Candidate>, from: nat, i: nat)
    requires from <= i < |versions|
    ensures Fallback(versions[from..i + 1]) ==
              var earlier := Fallback(versions[from..i]);
              if earlier != "" || Parses(versions[i]) then earlier else versions[i].path
    ensures Fallback(versions[i + 1..i + 1]) == ""
  {
    hide Parses;
    var vs := versions[from..i + 1];
    assert vs[..|vs| - 1] == versions[from..i];
  }

  lemma NothingFallsBack()
    ensures Fallback([]) == ""
  {
  }

  lemma PathNext(versions: seq<Candidate>, i: nat)
    requires i < |versions|
    ensures PathFrom(versions, i, i + 1) == versions[i].path
    ensures forall k {:trigger PathFrom(versions, k, i)} :: 0 <= k < i ==>
              PathFrom(versions, k, i + 1) ==
                if PathFrom(versions, k, i) != "" || Parses(versions[i]) then PathFrom(versions, k, i) else versions[i].path
  {
    hide Parses, Fallback;
    NothingFallsBack();
    assert versions[i + 1..i + 1] == [];
    forall k | 0 <= k < i
      ensures PathFrom(versions, k, i + 1) ==
                if PathFrom(versions, k, i) != "" || Parses(versions[i]) then PathFrom(versions, k, i) else versions[i].path
    {
      FallbackNext(versions, k + 1, i);
    }
  }

  // What the fallback is: empty if there is none, else the first one.
  lemma {:induction false} FallbackIsFirst(versions: seq<Candidate>)
    ensures Fallback(versions) == "" <==> forall j :: 0 <= j < |versions| && !Parses(versions[j]) ==> versions[j].path == ""
    ensures Fallback(versions) != "" ==>
              exists k: nat :: k < |versions| && !Parses(versions[k]) && Fallback(versions) == versions[k].path
                && forall j :: 0 <= j < k && !Parses(versions[j]) ==> versions[j].path == ""
  {
    hide Parses;
    if versions != [] {
      var init := versions[..|versions| - 1];
      FallbackIsFirst(init);
      assert forall j :: 0 <= j < |init| ==> init[j] == versions[j];
    }
  }

  // For candidates with paths, as FindRuntimeDirectory builds them: the path of the first of the
  // highest versions, or of the first candidate if none parses.
  lemma LatestPathOfNonEmpty(versions: seq<Candidate>, path: string)
    requires versions != [] && forall v :: v in versions ==> v.path != ""
    requires IsLatestPath(versions, path)
    ensures path != ""
    ensures if exists v :: v in versions && Parses(v) then exists k: nat :: IsLatest(versions, k) && path == versions[k].path
            else path == versions[0].path
  {
    hide Later, Parses, Fallback;
    assert versions[0] in versions;
    if exists v :: v in versions && Parses(v) {
      var k: nat :| IsLatest(versions, k) && path == PathFrom(versions, k, |versions|);
      LatestIsThere(versions, k);
    } else {
      FallbackIsFirst(versions);
      assert forall j :: 0 <= j < |versions| ==> versions[j] in versions;
    }
  }

  lemma LatestIsThere(versions: seq<Candidate>, k: nat)
    ensures IsLatest(versions, k) ==> k < |versions| && versions[k] in versions && Parses(versions[k])
  {
  }

  lemma StrictTotalOrderOf(a: Candidate, b: Candidate, c: Candidate)
    ensures !Later(a, a) && (Later(a, b) && Later(b, c) ==> Later(a, c))
    ensures Parses(b) && !Later(b, a) && Later(c, a) ==> Later(c, b)
    ensures Later(a, b) ==> !Later(b, a)
  {
  }

  lemma SkipUnparsed(versions: seq<Candidate>, i: nat, best: nat)
    requires i < |versions| && !Parses(versions[i])
    ensures IsLatest(versions[..i], best) ==> IsLatest(versions[..i + 1], best)
  {
    hide Later, Parses;
    var all := versions[..i + 1];
    assert all[..i] == versions[..i];
    if IsLatest(versions[..i], best) {
      assert all[best] == versions[..i][best];
      forall j | 0 <= j < |all| ensures !Later(all[j], all[best]) {
        if j < i {
          assert all[j] == versions[..i][j];
        } else {
          LaterParses(all[j], all[best]);
        }
      }
    }
  }

  lemma FirstParsed(versions: seq<Candidate>, i: nat)
    requires i < |versions| && Parses(versions[i]) && forall j :: 0 <= j < i ==> !Parses(versions[j])
    ensures IsLatest(versions[..i + 1], i)
  {
    hide Later, Parses;
    StrictTotalOrderOf(versions[i], versions[i], versions[i]);
    forall j | 0 <= j < i ensures !Later(versions[j], versions[i]) {
      LaterParses(versions[j], versions[i]);
    }
  }

  lemma NextParsed(versions: seq<Candidate>, i: nat, best: nat)
    requires i < |versions| && Parses(versions[i]) && IsLatest(versions[..i], best)
    ensures IsLatest(versions[..i + 1], if Later(versions[i], versions[best]) then i else best)
  {
    hide Later, Parses;
    var all, v, b := versions[..i + 1], versions[i], versions[best];
    StrictTotalOrderOf(v, v, v);
    assert all[best] == versions[..i][best] == b && all[i] == v;
    LaterParses(v, b);
    if Later(v, b) {
      forall j | 0 <= j < i ensures !Later(all[j], v) && (Parses(all[j]) ==> Later(v, all[j])) {
        assert all[j] == versions[..i][j];
        StrictTotalOrderOf(b, all[j], v);
        StrictTotalOrderOf(v, all[j], v);
        LaterParses(all[j], v);
      }
      assert IsLatest(all, i);
    } else {
      forall j | 0 <= j < |all| ensures !Later(all[j], b) && (j < best && Parses(all[j]) ==> Later(b, all[j])) {
        assert j < i ==> all[j] == versions[..i][j];
      }
      assert IsLatest(all, best);
    }
  }

  lemma LaterParses(a: Candidate, b: Candidate)
    ensures Later(a, b) ==> Parses(a) && Parses(b)
  {
  }

  // The version of a candidate that parses.
  function VersionOf(v: Candidate): Version
    requires Parses(v)
  {
    NewVersion(v.version).value
  }

  // a has the larger major version, or on a tie the larger minor, or on a tie of both the larger patch.
  predicate Higher(a: Version, b: Version) {
    a.major > b.major || (a.major == b.major && (a.minor > b.minor || (a.minor == b.minor && a.patch > b.patch)))
  }

  /** In terms of the components: no version that parses is higher than the latest one's, and each
      before it is lower. */
  lemma LatestByComponents(versions: seq<Candidate>, k: nat)
    ensures IsLatest(versions, k) <==>
              && k < |versions| && Parses(versions[k])
              && (forall j :: 0 <= j < |versions| && Parses(versions[j]) ==> !Higher(VersionOf(versions[j]), VersionOf(versions[k])))
              && (forall j :: 0 <= j < k && Parses(versions[j]) ==> Higher(VersionOf(versions[k]), VersionOf(versions[j])))
  {
    hide NewVersion;
    forall i, j | 0 <= i < |versions| && 0 <= j < |versions| && Parses(versions[i]) && Parses(versions[j])
      ensures Later(versions[i], versions[j]) <==> Higher(VersionOf(versions[i]), VersionOf(versions[j]))
    {
      HigherIsGreater(VersionOf(versions[i]), VersionOf(versions[j]));
    }
  }

  lemma HigherIsGreater(a: Version, b: Version)
    ensures Higher(a, b) <==> GreaterThan(a, b)
  {
    Precedence(a, b);
    Precedence(b, a);
    StrictTotalOrder(a, b, a);
  }

  // --- the first pass of FindRuntimeDirectory ---

  datatype RuntimeConfig = RuntimeConfig(Name: string, Version: string)

  // A directory below a runtime's own; config is None if it has no valid runtime.yml.
  datatype VersionEntry = VersionEntry(name: string, isDir: bool, config: Option<RuntimeConfig>)

  // An entry of the runtimes directory; versions is None if it cannot be read.
  datatype Entry = Entry(name: string, isDir: bool, versions: Option<seq<VersionEntry>>, flat: Option<RuntimeConfig>)

  // filepath.Join of a directory and an entry of it.
  function Below(dir: string, name: string): (path: string)
    ensures dir < path && path[|dir|..] == "/" + name
  {
    dir + "/" + name
  }

  predicate WantsLatest(requestedVersion: string) { requestedVersion == "" || requestedVersion == "latest" }

  predicate Fits(config: Option<RuntimeConfig>, runtimeName: string, requestedVersion: string) {
    config.Some? && config.value.Name == runtimeName && (WantsLatest(requestedVersion) || config.value.Version == requestedVersion)
  }

  predicate VersionFits(v: VersionEntry, runtimeName: string, requestedVersion: string) {
    v.isDir && Fits(v.config, runtimeName, requestedVersion)
  }

  // The versions below dir that fit, in directory order.
  function Fitting(dir: string, versions: seq<VersionEntry>, runtimeName: string, requestedVersion: string): seq<Candidate> {
    if versions == [] then []
    else
      var v := versions[|versions| - 1];
      Fitting(dir, versions[..|versions| - 1], runtimeName, requestedVersion)
      + if VersionFits(v, runtimeName, requestedVersion) then [Candidate(Below(dir, v.name), v.config.value.Version)] else []
  }

  lemma {:induction false} FittingMembers(dir: string, versions: seq<VersionEntry>, runtimeName: string, requestedVersion: string)
    ensures forall c :: c in Fitting(dir, versions, runtimeName, requestedVersion) <==>
              exists v :: v in versions && VersionFits(v, runtimeName, requestedVersion)
                          && c == Candidate(Below(dir, v.name), v.config.value.Version)
    ensures Fitting(dir, versions, runtimeName, requestedVersion) != [] <==>
              exists v :: v in versions && VersionFits(v, runtimeName, requestedVersion)
  {
    if versions != [] {
      var init, last := versions[..|versions| - 1], versions[|versions| - 1];
      FittingMembers(dir, init, runtimeName, requestedVersion);
      assert versions == init + [last];
    }
  }

  // Whether an entry answers the request: by a version below it, or itself.
  predicate Answers(e: Entry, runtimeName: string, requestedVersion: string) {
    && e.isDir && e.versions.Some?
    && ((exists v :: v in e.versions.value && VersionFits(v, runtimeName, requestedVersion)) || Fits(e.flat, runtimeName, requestedVersion))
  }

  // The answer of an entry: the latest version if that is asked for, else the first that is the
  // one asked for; the entry itself only if no version below it fits.
  ghost predicate IsAnswer(root: string, e: Entry, runtimeName: string, requestedVersion: string, path: string)
    requires e.versions.Some?
  {
    var fitting := Fitting(Below(root, e.name), e.versions.value, runtimeName, requestedVersion);
    if fitting == [] then path == Below(root, e.name)
    else if WantsLatest(requestedVersion) then IsLatestPath(fitting, path)
    else path == fitting[0].path
  }

  // The inner loop: it stops at the first version asked for by its number.
  method ScanVersions(dir: string, versions: seq<VersionEntry>, runtimeName: string, requestedVersion: string)
    returns (exact: Option<string>, matchingVersions: seq<Candidate>)
    ensures var fitting := Fitting(dir, versions, runtimeName, requestedVersion);
            if WantsLatest(requestedVersion) then exact.None? && matchingVersions == fitting
            else matchingVersions == [] && exact == if fitting == [] then None else Some(fitting[0].path)
  {
    hide VersionFits;
    matchingVersions := [];
    for i := 0 to |versions|
      invariant if WantsLatest(requestedVersion) then matchingVersions == Fitting(dir, versions[..i], runtimeName, requestedVersion)
                else matchingVersions == Fitting(dir, versions[..i], runtimeName, requestedVersion) == []
    {
      var versionEntry := versions[i];
      assert versions[..i + 1][..i] == versions[..i];
      FitsOf(versionEntry, runtimeName, requestedVersion);
      if !versionEntry.isDir {
        continue;
      }
      if versionEntry.config.None? {
        continue;
      }
      var config := versionEntry.config.value;
      if config.Name == runtimeName {
        if requestedVersion != "" && requestedVersion != "latest" {
          if config.Version == requestedVersion {
            FittingPrefix(dir, versions, i + 1, runtimeName, requestedVersion);
            return Some(Below(dir, versionEntry.name)), [];
          }
        } else {
          matchingVersions := matchingVersions + [Candidate(Below(dir, versionEntry.name), config.Version)];
        }
      }
    }
    assert versions[..|versions|] == versions;
    exact := None;
  }

  lemma FitsOf(v: VersionEntry, runtimeName: string, requestedVersion: string)
    ensures VersionFits(v, runtimeName, requestedVersion) <==>
              v.isDir && v.config.Some? && v.config.value.Name == runtimeName
              && (WantsLatest(requestedVersion) || v.config.value.Version == requestedVersion)
  {
  }

  lemma {:induction false} FittingPrefix(dir: string, versions: seq<VersionEntry>, i: nat, runtimeName: string, requestedVersion: string)
    requires i <= |versions|
    ensures Fitting(dir, versions[..i], runtimeName, requestedVersion) <= Fitting(dir, versions, runtimeName, requestedVersion)
    decreases |versions|
  {
    if i < |versions| {
      var init := versions[..|versions| - 1];
      FittingPrefix(dir, init, i, runtimeName, requestedVersion);
      assert init[..i] == versions[..i];
    } else {
      assert versions[..i] == versions;
    }
  }

  lemma FittingPaths(dir: string, versions: seq<VersionEntry>, runtimeName: string, requestedVersion: string)
    ensures forall c :: c in Fitting(dir, versions, runtimeName, requestedVersion) ==> c.path != ""
  {
    FittingMembers(dir, versions, runtimeName, requestedVersion);
  }

  // One entry of the runtimes directory.
  method ScanEntry(root: string, e: Entry, runtimeName: string, requestedVersion: string) returns (path: Option<string>)
    ensures path.Some? <==> Answers(e, runtimeName, requestedVersion)
    ensures path.Some? ==> IsAnswer(root, e, runtimeName, requestedVersion, path.value)
  {
    hide VersionFits, Fitting, IsLatest, Parses, Below;
    if !e.isDir {
      return None;
    }
    var runtimeNameDir := Below(root, e.name);
    if e.versions.None? {
      return None;
    }
    FittingMembers(runtimeNameDir, e.versions.value, runtimeName, requestedVersion);
    FittingPaths(runtimeNameDir, e.versions.value, runtimeName, requestedVersion);
    var exact, matchingVersions := ScanVersions(runtimeNameDir, e.versions.value, runtimeName, requestedVersion);
    if exact.Some? {
      return exact;
    }
    if |matchingVersions| > 0 && (requestedVersion == "" || requestedVersion == "latest") {
      var latestPath := FindLatestVersion(matchingVersions);
      LatestPathOfNonEmpty(matchingVersions, latestPath);
      if latestPath != "" {
        return Some(latestPath);
      }
    }
    if e.flat.Some? && e.flat.value.Name == runtimeName {
      if requestedVersion == "" || requestedVersion == "latest" || e.flat.value.Version == requestedVersion {
        return Some(runtimeNameDir);
      }
    }
    return None;
  }

  // A runtime.yml that has the name asked for, and the version unless the latest is wanted.
  predicate Asked(config: Option<RuntimeConfig>, name: string, version: string) {
    config.Some? && config.value.Name == name && (version == "" || version == "latest" || config.value.Version == version)
  }

  /** An entry answers if and only if it is a directory that can be read and it, or a directory below
      it, has a runtime.yml that is asked for. */
  lemma AnswersExactlyWhen(e: Entry, name: string, version: string)
    ensures Answers(e, name, version) <==>
              && e.isDir && e.versions.Some?
              && (Asked(e.flat, name, version) || exists v :: v in e.versions.value && v.isDir && Asked(v.config, name, version))
  {
    if e.versions.Some? {
      forall v | v in e.versions.value ensures VersionFits(v, name, version) <==> v.isDir && Asked(v.config, name, version) {
        FitsOf(v, name, version);
      }
    }
  }

  /** What an answer is: the directory of an entry that is one itself, if no version below it is
      asked for; else that of a version below it that is asked for, the first of them for a given
      version, and one than which none of them is higher for the latest, if its version parses. */
  lemma AnswerIs(root: string, e: Entry, name: string, version: string, path: string)
    requires Answers(e, name, version) && IsAnswer(root, e, name, version, path)
    ensures e.isDir && e.versions.Some?
    ensures var vs := e.versions.value;
            if forall v :: v in vs ==> !(v.isDir && Asked(v.config, name, version)) then Asked(e.flat, name, version) && path == root + "/" + e.name
            else exists v :: v in vs && v.isDir && Asked(v.config, name, version) && path == root + "/" + e.name + "/" + v.name
                   && (version == "" || version == "latest" ==>
                         forall w :: w in vs && w.isDir && Asked(w.config, name, version) && NewVersion(w.config.value.Version).Ok? ==>
                           NewVersion(v.config.value.Version).Ok?
                           && !Higher(NewVersion(w.config.value.Version).value, NewVersion(v.config.value.Version).value))
  {
    hide NewVersion, IsLatest, Fitting;
    var vs := e.versions.value;
    var dir := root + "/" + e.name;
    assert Below(root, e.name) == dir;
    var fitting := Fitting(dir, vs, name, version);
    FittingMembers(dir, vs, name, version);
    forall v | v in vs ensures VersionFits(v, name, version) <==> v.isDir && Asked(v.config, name, version) {
      FitsOf(v, name, version);
    }
    if fitting != [] {
      var k := AnswerIndex(fitting, version, path);
      assert fitting[k] in fitting;
      var v :| v in vs && VersionFits(v, name, version) && fitting[k] == Candidate(Below(dir, v.name), v.config.value.Version);
      if version == "" || version == "latest" {
        forall w | w in vs && w.isDir && Asked(w.config, name, version) && NewVersion(w.config.value.Version).Ok?
          ensures NewVersion(v.config.value.Version).Ok?
          ensures !Higher(NewVersion(w.config.value.Version).value, NewVersion(v.config.value.Version).value)
        {
          var c := Candidate(Below(dir, w.name), w.config.value.Version);
          assert c in fitting && Parses(c);
        }
      }
    }
  }

  // Which of the fitting versions the answer is.
  lemma AnswerIndex(fitting: seq<Candidate>, version: string, path: string) returns (k: nat)
    requires fitting != [] && forall c :: c in fitting ==> c.path != ""
    requires if WantsLatest(version) then IsLatestPath(fitting, path) else path == fitting[0].path
    ensures k < |fitting| && path == fitting[k].path
    ensures WantsLatest(version) ==>
              forall c :: c in fitting && Parses(c) ==> Parses(fitting[k]) && !Higher(VersionOf(c), VersionOf(fitting[k]))
  {
    k := 0;
    if WantsLatest(version) {
      LatestPathOfNonEmpty(fitting, path);
      if exists c :: c in fitting && Parses(c) {
        k :| IsLatest(fitting, k) && path == fitting[k].path;
        LatestByComponents(fitting, k);
      }
    }
  }

  /** The first pass finds nothing exactly when no entry answers; otherwise the first entry that
      does decides, with its latest fitting version, or the exact one asked for. */
  method FirstPass(root: string, entries: seq<Entry>, runtimeName: string, requestedVersion: string) returns (path: Option<string>)
    ensures path.None? <==> forall e :: e in entries ==> !Answers(e, runtimeName, requestedVersion)
    ensures path.Some? ==>
              exists k: nat :: k < |entries| && Answers(entries[k], runtimeName, requestedVersion)
                && (forall j :: 0 <= j < k ==> !Answers(entries[j], runtimeName, requestedVersion))
                && IsAnswer(root, entries[k], runtimeName, requestedVersion, path.value)
  {
    hide Fits, VersionFits, IsAnswer;
    for k := 0 to |entries|
      invariant forall j :: 0 <= j < k ==> !Answers(entries[j], runtimeName, requestedVersion)
    {
      path := ScanEntry(root, entries[k], runtimeName, requestedVersion);
      if path.Some? {
        assert entries[k] in entries;
        return;
      }
    }
    path := None;
  }
}
