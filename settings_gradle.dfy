/**
 * The build settings' choice between local clones and git checkouts of the
 * two libraries the app depends on. The `useLocalDicioLibraries` property
 * holds comma-separated `name:path` pairs; each named library is built from
 * the given path, and every other library is checked out from git at the
 * commit the version catalog pins.
 */
module SettingsGradle {
  import opened Wrappers
  import opened Text

  /** A library that may be checked out from git: its name, remote, Gradle project and pinned commit. */
  datatype IncludeGitRepo = IncludeGitRepo(name: string, uri: string, projectPath: string, commit: string)

  /** The names of the libraries. */
  function NameSet(repos: seq<IncludeGitRepo>): set<string> {
    set r | r in repos :: r.name
  }

  predicate DistinctNames(repos: seq<IncludeGitRepo>) {
    forall i, j :: 0 <= i < j < |repos| ==> repos[i].name != repos[j].name
  }

  /**
   * `includeGitRepos`: dicio-numbers and dicio-sentences-compiler, with the
   * commits read from the version catalog (reading it is not modelled: the
   * commits are parameters).
   */
  function IncludeGitRepos(numbersCommit: string, sentencesCompilerCommit: string): (repos: seq<IncludeGitRepo>)
    ensures |repos| == 2 && DistinctNames(repos)
    ensures repos[0].commit == numbersCommit && repos[1].commit == sentencesCompilerCommit
  {
    [IncludeGitRepo("dicio-numbers", "https://github.com/Stypox/dicio-numbers", ":numbers", numbersCommit),
     IncludeGitRepo("dicio-sentences-compiler", "https://github.com/Stypox/dicio-sentences-compiler",
       ":sentences_compiler", sentencesCompilerCommit)]
  }

  // ---------------------------------------------------------------------------
  // Parsing `useLocalDicioLibraries`

  /** The two `IllegalArgumentException`s the parser throws. */
  datatype SettingsError = InvalidSpecification(pair: string) | InvalidName(key: string) {
    function Message(): string {
      match this
      case InvalidSpecification(pair) => "Invalid library specification in useLocalDicioLibraries: " + pair
      case InvalidName(key) => "Invalid or duplicate library name in useLocalDicioLibraries: " + key
    }
  }

  /** `parts[0]` of `split(":", limit = 2)`: the text before the first `:`, or the whole piece when there is none. */
  function Key(piece: string): string {
    match SplitFirst(piece, ':')
    case None => piece
    case Some(kv) => kv.0
  }

  /** `parts[1]`: everything after the first `:`, further colons included. */
  function Value(piece: string): string
    requires ':' in piece
  {
    SplitFirst(piece, ':').value.1
  }

  /** The loop of `parseKeyValuePairs` from piece `pieces[0]` on, with the keys still valid and the map so far. */
  function ParsePieces(pieces: seq<string>, validKeys: set<string>, acc: map<string, string>)
    : Result<map<string, string>, SettingsError>
    decreases |pieces|
  {
    if pieces == [] then Success(acc)
    else
      match SplitFirst(pieces[0], ':')
      case None => Failure(InvalidSpecification(pieces[0]))
      case Some(kv) =>
        if kv.0 !in validKeys then Failure(InvalidName(kv.0))
        else ParsePieces(pieces[1..], validKeys - {kv.0}, acc[kv.0 := kv.1])
  }

  /** `parseKeyValuePairs`: the libraries to build from a local path, or the exception thrown. */
  function KeyValuePairs(input: string, repos: seq<IncludeGitRepo>): Result<map<string, string>, SettingsError> {
    if IsBlank(input) then Success(map[])
    else ParsePieces(Split(input, ','), NameSet(repos), map[])
  }

  /** `parseKeyValuePairs`, removing each key from the mutable set of valid keys as it goes. */
  method ParseKeyValuePairs(input: string, repos: seq<IncludeGitRepo>) returns (r: Result<map<string, string>, SettingsError>)
    ensures r == KeyValuePairs(input, repos)
  {
    if IsBlank(input) {
      return Success(map[]);
    }
    var result: map<string, string> := map[];
    var validKeys := set repo | repo in repos :: repo.name;
    var pieces := Split(input, ',');
    for i := 0 to |pieces|
      invariant ParsePieces(pieces, NameSet(repos), map[]) == ParsePieces(pieces[i..], validKeys, result)
    {
      assert pieces[i..][0] == pieces[i] && pieces[i..][1..] == pieces[i + 1..];
      var parts := SplitFirst(pieces[i], ':');
      if parts.None? {
        return Failure(InvalidSpecification(pieces[i]));
      } else if parts.value.0 !in validKeys {
        return Failure(InvalidName(parts.value.0));
      }
      validKeys := validKeys - {parts.value.0};
      result := result[parts.value.0 := parts.value.1];
    }
    assert pieces[|pieces|..] == [];
    r := Success(result);
  }

  /** Every piece names a valid library after a `:`, and no library twice. */
  predicate Accepted(pieces: seq<string>, validKeys: set<string>) {
    forall i :: 0 <= i < |pieces| ==>
      && ':' in pieces[i]
      && Key(pieces[i]) in validKeys
      && forall j :: 0 <= j < i ==> Key(pieces[j]) != Key(pieces[i])
  }

  /** The exception for a rejected piece: no `:` at all, or a name that is unknown or already used. */
  function Rejection(piece: string): SettingsError {
    if ':' in piece then InvalidName(Key(piece)) else InvalidSpecification(piece)
  }

  function KeySet(pieces: seq<string>): set<string> {
    set p | p in pieces :: Key(p)
  }

  /** Accepting a list is accepting its first piece, then the rest with that name used up. */
  lemma AcceptedCons(pieces: seq<string>, validKeys: set<string>)
    requires pieces != []
    ensures Accepted(pieces, validKeys) <==>
      ':' in pieces[0] && Key(pieces[0]) in validKeys && Accepted(pieces[1..], validKeys - {Key(pieces[0])})
  {
    var rest := pieces[1..];
    var k0 := Key(pieces[0]);
    assert forall i :: 0 <= i < |rest| ==> rest[i] == pieces[i + 1];
    if Accepted(pieces, validKeys) {
      forall i | 0 <= i < |rest|
        ensures Key(rest[i]) in validKeys - {k0}
      {
        assert Key(pieces[0]) != Key(pieces[i + 1]);
      }
    }
    if ':' in pieces[0] && k0 in validKeys && Accepted(rest, validKeys - {k0}) {
      forall i | 1 <= i < |pieces|
        ensures Key(pieces[i]) in validKeys && forall j :: 0 <= j < i ==> Key(pieces[j]) != Key(pieces[i])
      {
        assert rest[i - 1] == pieces[i];
        forall j | 1 <= j < i
          ensures Key(pieces[j]) != Key(pieces[i])
        {
          assert rest[j - 1] == pieces[j];
        }
      }
    }
  }

  /** The loop runs to the end exactly when the pieces are accepted. */
  lemma {:induction false} ParseSucceedsIff(pieces: seq<string>, validKeys: set<string>, acc: map<string, string>)
    ensures ParsePieces(pieces, validKeys, acc).Success? <==> Accepted(pieces, validKeys)
    decreases |pieces|
  {
    if pieces != [] {
      AcceptedCons(pieces, validKeys);
      match SplitFirst(pieces[0], ':')
      case None =>
      case Some(kv) =>
        if kv.0 in validKeys {
          ParseSucceedsIff(pieces[1..], validKeys - {kv.0}, acc[kv.0 := kv.1]);
        }
    }
  }

  /**
   * When the loop runs to the end, it has mapped each piece's name to its
   * value and kept the other entries it started with.
   */
  lemma {:induction false} ParseEntries(pieces: seq<string>, validKeys: set<string>, acc: map<string, string>)
    requires ParsePieces(pieces, validKeys, acc).Success?
    ensures var m := ParsePieces(pieces, validKeys, acc).value;
      && m.Keys == acc.Keys + KeySet(pieces)
      && (forall i :: 0 <= i < |pieces| ==> ':' in pieces[i] && m[Key(pieces[i])] == Value(pieces[i]))
      && (forall k :: k in acc && k !in KeySet(pieces) ==> m[k] == acc[k])
    decreases |pieces|
  {
    if pieces != [] {
      var rest := pieces[1..];
      var kv := SplitFirst(pieces[0], ':').value;
      var acc' := acc[kv.0 := kv.1];
      ParseEntries(rest, validKeys - {kv.0}, acc');
      ParseSucceedsIff(pieces, validKeys, acc);
      RestKeys(pieces, validKeys);
      var m := ParsePieces(rest, validKeys - {kv.0}, acc').value;
      assert ParsePieces(pieces, validKeys, acc).value == m;
      assert Key(pieces[0]) == kv.0;
      assert KeySet(pieces) == {kv.0} + KeySet(rest) by {
        assert forall p :: p in pieces <==> p == pieces[0] || p in rest;
      }
      assert m[kv.0] == kv.1;
      forall i | 1 <= i < |pieces|
        ensures ':' in pieces[i] && m[Key(pieces[i])] == Value(pieces[i])
      {
        assert pieces[i] == rest[i - 1];
      }
    }
  }

  /** Piece `n` is the first one not accepted, and `e` is the exception for it. */
  predicate FirstRejected(pieces: seq<string>, validKeys: set<string>, n: int, e: SettingsError) {
    && 0 <= n < |pieces| && Accepted(pieces[..n], validKeys) && !Accepted(pieces[..n + 1], validKeys)
    && e == Rejection(pieces[n])
  }

  /** When the loop throws, it throws for the first piece that is not accepted. */
  lemma {:induction false} ParseFailure(pieces: seq<string>, validKeys: set<string>, acc: map<string, string>)
    requires ParsePieces(pieces, validKeys, acc).Failure?
    ensures exists n :: FirstRejected(pieces, validKeys, n, ParsePieces(pieces, validKeys, acc).error)
    decreases |pieces|
  {
    var rest := pieces[1..];
    var r := ParsePieces(pieces, validKeys, acc);
    AcceptedCons(pieces[..1], validKeys);
    assert Accepted(pieces[..0], validKeys);
    match SplitFirst(pieces[0], ':')
    case None =>
      assert FirstRejected(pieces, validKeys, 0, r.error);
    case Some(kv) =>
      if kv.0 !in validKeys {
        assert FirstRejected(pieces, validKeys, 0, r.error);
      } else {
        var valid' := validKeys - {kv.0};
        ParseFailure(rest, valid', acc[kv.0 := kv.1]);
        var n :| FirstRejected(rest, valid', n, r.error);
        AcceptedCons(pieces[..n + 1], validKeys);
        AcceptedCons(pieces[..n + 2], validKeys);
        assert pieces[..n + 1][1..] == rest[..n];
        assert pieces[..n + 2][1..] == rest[..n + 1];
        assert rest[n] == pieces[n + 1];
        assert FirstRejected(pieces, validKeys, n + 1, r.error);
      }
  }

  /** After an accepted first piece, the names of the other pieces are not its name. */
  lemma RestKeys(pieces: seq<string>, validKeys: set<string>)
    requires pieces != [] && Accepted(pieces, validKeys)
    ensures Key(pieces[0]) !in KeySet(pieces[1..])
  {
    forall p | p in pieces[1..]
      ensures Key(p) != Key(pieces[0])
    {
      var i :| 0 <= i < |pieces[1..]| && pieces[1..][i] == p;
      assert pieces[i + 1] == p;
    }
  }

  /**
   * A blank setting means no local library; otherwise parsing succeeds
   * exactly when every comma-separated piece is `name:path` with the name of
   * a library, no name twice.
   */
  lemma KeyValuePairsSucceeds(input: string, repos: seq<IncludeGitRepo>)
    ensures IsBlank(input) ==> KeyValuePairs(input, repos) == Success(map[])
    ensures KeyValuePairs(input, repos).Success? <==> IsBlank(input) || Accepted(Split(input, ','), NameSet(repos))
  {
    ParseSucceedsIff(Split(input, ','), NameSet(repos), map[]);
  }

  /**
   * On success each piece is split at its first `:` only: its name maps to
   * all the text after that colon (which may hold more colons), and the map
   * holds nothing else.
   */
  lemma KeyValuePairsEntries(input: string, repos: seq<IncludeGitRepo>)
    requires KeyValuePairs(input, repos).Success? && !IsBlank(input)
    ensures var libs := KeyValuePairs(input, repos).value;
      var pieces := Split(input, ',');
      && libs.Keys == KeySet(pieces)
      && (forall i :: 0 <= i < |pieces| ==>
            && ':' in pieces[i]
            && pieces[i] == Key(pieces[i]) + [':'] + libs[Key(pieces[i])]
            && ':' !in Key(pieces[i]))
  {
    var pieces := Split(input, ',');
    ParseEntries(pieces, NameSet(repos), map[]);
  }

  /** A failure names the first piece that is not a fresh `name:path` pair: its text when it has no `:`, else its name. */
  lemma KeyValuePairsFailure(input: string, repos: seq<IncludeGitRepo>)
    requires KeyValuePairs(input, repos).Failure?
    ensures !IsBlank(input)
    ensures exists n :: FirstRejected(Split(input, ','), NameSet(repos), n, KeyValuePairs(input, repos).error)
  {
    ParseFailure(Split(input, ','), NameSet(repos), map[]);
  }

  /** A subset is no larger. */
  lemma {:induction false} SubsetSize<T>(a: set<T>, b: set<T>)
    requires a <= b
    ensures |a| <= |b|
    decreases b
  {
    if a != {} {
      var x :| x in a;
      SubsetSize(a - {x}, b - {x});
    }
  }

  /** There are as many names as libraries when no two share one, and never more. */
  lemma {:induction false} NameSetSize(repos: seq<IncludeGitRepo>)
    ensures |NameSet(repos)| <= |repos|
    ensures DistinctNames(repos) ==> |NameSet(repos)| == |repos|
  {
    if repos != [] {
      var rest := repos[1..];
      NameSetSize(rest);
      assert NameSet(repos) == {repos[0].name} + NameSet(rest) by {
        assert forall r :: r in repos <==> r == repos[0] || r in rest;
      }
      if DistinctNames(repos) {
        assert DistinctNames(rest) by {
          assert forall i :: 0 <= i < |rest| ==> rest[i] == repos[i + 1];
        }
      }
    }
  }

  /** Only libraries can be used locally, each at most once: never more local libraries than libraries. */
  lemma LocalLibrariesBound(input: string, repos: seq<IncludeGitRepo>)
    requires KeyValuePairs(input, repos).Success?
    ensures KeyValuePairs(input, repos).value.Keys <= NameSet(repos)
    ensures |KeyValuePairs(input, repos).value| <= |repos|
  {
    var libs := KeyValuePairs(input, repos).value;
    if !IsBlank(input) {
      var pieces := Split(input, ',');
      ParseEntries(pieces, NameSet(repos), map[]);
      ParseSucceedsIff(pieces, NameSet(repos), map[]);
      forall k | k in libs.Keys
        ensures k in NameSet(repos)
      {
        var p :| p in pieces && Key(p) == k;
        var i :| 0 <= i < |pieces| && pieces[i] == p;
      }
    }
    SubsetSize(libs.Keys, NameSet(repos));
    NameSetSize(repos);
  }

  // ---------------------------------------------------------------------------
  // Including the libraries

  /** How one library gets into the build. */
  datatype Inclusion =
    | LocalBuild(path: string, coordinates: string, projectPath: string)
    | GitCheckout(name: string, uri: string, commit: string, coordinates: string, projectPath: string)

  /** The Maven coordinates that the included build stands in for. */
  function Coordinates(repo: IncludeGitRepo): string {
    "git.included.build:" + repo.name
  }

  /** The local builds the first loop sets up, library by library. */
  function LocalBuilds(repos: seq<IncludeGitRepo>, libs: map<string, string>): seq<Inclusion>
    decreases |repos|
  {
    if repos == [] then []
    else
      var repo := repos[|repos| - 1];
      LocalBuilds(repos[..|repos| - 1], libs)
        + (if repo.name in libs then [LocalBuild(libs[repo.name], Coordinates(repo), repo.projectPath)] else [])
  }

  /** The checkouts the `gitRepositories` block sets up, library by library. */
  function GitCheckouts(repos: seq<IncludeGitRepo>, libs: map<string, string>): seq<Inclusion>
    decreases |repos|
  {
    if repos == [] then []
    else
      var repo := repos[|repos| - 1];
      GitCheckouts(repos[..|repos| - 1], libs)
        + (if repo.name !in libs then [GitCheckout(repo.name, repo.uri, repo.commit, Coordinates(repo), repo.projectPath)] else [])
  }

  /** Everything included: the local builds, then the checkouts if fewer libraries are local than there are libraries. */
  function Inclusions(repos: seq<IncludeGitRepo>, libs: map<string, string>): seq<Inclusion> {
    LocalBuilds(repos, libs) + (if |libs| < |repos| then GitCheckouts(repos, libs) else [])
  }

  /** The two loops over `includeGitRepos`, recording each inclusion in order. */
  method IncludeLibraries(repos: seq<IncludeGitRepo>, libs: map<string, string>) returns (included: seq<Inclusion>)
    ensures included == Inclusions(repos, libs)
  {
    included := [];
    for i := 0 to |repos|
      invariant included == LocalBuilds(repos[..i], libs)
    {
      var repo := repos[i];
      assert repos[..i + 1][..i] == repos[..i];
      if repo.name in libs {
        included := included + [LocalBuild(libs[repo.name], Coordinates(repo), repo.projectPath)];
      }
    }
    assert repos[..|repos|] == repos;
    if |libs| < |repos| {
      ghost var local := included;
      for i := 0 to |repos|
        invariant included == local + GitCheckouts(repos[..i], libs)
      {
        var repo := repos[i];
        assert repos[..i + 1][..i] == repos[..i];
        if repo.name !in libs {
          included := included + [GitCheckout(repo.name, repo.uri, repo.commit, Coordinates(repo), repo.projectPath)];
        }
      }
    }
  }

  /** The local builds are exactly those of the libraries named in the setting, each with its path. */
  lemma {:induction false} LocalBuildsShape(repos: seq<IncludeGitRepo>, libs: map<string, string>)
    ensures forall b :: b in LocalBuilds(repos, libs) ==>
      exists i :: 0 <= i < |repos| && repos[i].name in libs
        && b == LocalBuild(libs[repos[i].name], Coordinates(repos[i]), repos[i].projectPath)
    ensures forall i :: 0 <= i < |repos| && repos[i].name in libs ==>
      LocalBuild(libs[repos[i].name], Coordinates(repos[i]), repos[i].projectPath) in LocalBuilds(repos, libs)
    decreases |repos|
  {
    if repos != [] {
      var init := repos[..|repos| - 1];
      LocalBuildsShape(init, libs);
      assert forall i :: 0 <= i < |init| ==> init[i] == repos[i];
    }
  }

  /** The checkouts are exactly those of the libraries not named in the setting. */
  lemma {:induction false} GitCheckoutsShape(repos: seq<IncludeGitRepo>, libs: map<string, string>)
    ensures forall b :: b in GitCheckouts(repos, libs) ==>
      exists i :: 0 <= i < |repos| && repos[i].name !in libs
        && b == GitCheckout(repos[i].name, repos[i].uri, repos[i].commit, Coordinates(repos[i]), repos[i].projectPath)
    ensures forall i :: 0 <= i < |repos| && repos[i].name !in libs ==>
      GitCheckout(repos[i].name, repos[i].uri, repos[i].commit, Coordinates(repos[i]), repos[i].projectPath)
        in GitCheckouts(repos, libs)
    decreases |repos|
  {
    if repos != [] {
      var init := repos[..|repos| - 1];
      GitCheckoutsShape(init, libs);
      assert forall i :: 0 <= i < |init| ==> init[i] == repos[i];
    }
  }

  /**
   * With local libraries from a successful parse, `gitRepositories` is set up
   * exactly when some library is not local.
   */
  lemma CheckoutsConfiguredIff(repos: seq<IncludeGitRepo>, libs: map<string, string>)
    requires DistinctNames(repos) && libs.Keys <= NameSet(repos)
    ensures |libs| < |repos| <==> exists i :: 0 <= i < |repos| && repos[i].name !in libs
  {
    NameSetSize(repos);
    if i :| 0 <= i < |repos| && repos[i].name !in libs {
      SubsetSize(libs.Keys, NameSet(repos) - {repos[i].name});
    } else {
      SubsetSize(NameSet(repos), libs.Keys);
    }
  }

  /**
   * The whole settings step: the property (empty when `local.properties`
   * could not be read) is parsed, and every library is then built from its
   * local path when the setting names it and checked out from git at its
   * pinned commit otherwise.
   */
  function Configure(properties: map<string, string>, repos: seq<IncludeGitRepo>): Result<seq<Inclusion>, SettingsError> {
    var setting := if "useLocalDicioLibraries" in properties then properties["useLocalDicioLibraries"] else "";
    var libs :- KeyValuePairs(setting, repos);
    Success(Inclusions(repos, libs))
  }

  /**
   * With local libraries from a successful parse, each library is built from
   * its local path or checked out from git, and only a library that is not
   * local is checked out.
   */
  lemma EachLibraryOneWay(repos: seq<IncludeGitRepo>, libs: map<string, string>)
    requires DistinctNames(repos) && libs.Keys <= NameSet(repos)
    ensures var included := Inclusions(repos, libs);
      && (forall i :: 0 <= i < |repos| && repos[i].name in libs ==>
            LocalBuild(libs[repos[i].name], Coordinates(repos[i]), repos[i].projectPath) in included)
      && (forall i :: 0 <= i < |repos| && repos[i].name !in libs ==>
            GitCheckout(repos[i].name, repos[i].uri, repos[i].commit, Coordinates(repos[i]), repos[i].projectPath) in included)
      && (forall b :: b in included && b.GitCheckout? ==> b.name !in libs)
  {
    LocalBuildsShape(repos, libs);
    CheckoutsConfiguredIff(repos, libs);
    CheckoutsShape(repos, libs);
  }

  /** Before the parse result is known: local builds cover the libraries in `libs`, and checkouts cover the others when configured. */
  lemma CheckoutsShape(repos: seq<IncludeGitRepo>, libs: map<string, string>)
    ensures var included := Inclusions(repos, libs);
      && (forall b :: b in included && b.GitCheckout? ==> b.name !in libs)
      && (|libs| < |repos| ==> forall i :: 0 <= i < |repos| && repos[i].name !in libs ==>
            GitCheckout(repos[i].name, repos[i].uri, repos[i].commit, Coordinates(repos[i]), repos[i].projectPath) in included)
  {
    var local := LocalBuilds(repos, libs);
    assert forall b :: b in local ==> b.LocalBuild? by {
      LocalBuildsShape(repos, libs);
    }
    GitCheckoutsShape(repos, libs);
  }

  /** The whole settings step includes each library one way: from the local path the setting gives it, or from git. */
  lemma EveryLibraryIncluded(properties: map<string, string>, repos: seq<IncludeGitRepo>)
    requires DistinctNames(repos)
    requires Configure(properties, repos).Success?
    ensures var setting := if "useLocalDicioLibraries" in properties then properties["useLocalDicioLibraries"] else "";
      var libs := KeyValuePairs(setting, repos).value;
      var included := Configure(properties, repos).value;
      && (forall i :: 0 <= i < |repos| && repos[i].name in libs ==>
            LocalBuild(libs[repos[i].name], Coordinates(repos[i]), repos[i].projectPath) in included)
      && (forall i :: 0 <= i < |repos| && repos[i].name !in libs ==>
            GitCheckout(repos[i].name, repos[i].uri, repos[i].commit, Coordinates(repos[i]), repos[i].projectPath) in included)
      && (forall b :: b in included && b.GitCheckout? ==> b.name !in libs)
  {
    var setting := if "useLocalDicioLibraries" in properties then properties["useLocalDicioLibraries"] else "";
    var libs := KeyValuePairs(setting, repos).value;
    LocalLibrariesBound(setting, repos);
    EachLibraryOneWay(repos, libs);
  }
}
