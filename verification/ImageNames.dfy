/** Image names: a repository marker followed by a path, rewritten to a pull URL. */
module ImageNames {
  import opened GoStrings
  import opened Records

  function Marker(repo: RepoType): string {
    match repo
    case SingularityRepository => "singularity-repository."
    case DockerRepository => "docker-repository."
    case LocalRepository => "local-image."
    case LocalDefinitionFile => "local-def-file."
    case UnknownRepository => ""
  }

  function Scheme(repo: RepoType): string {
    match repo
    case SingularityRepository => "shub://"
    case DockerRepository => "docker://"
    case _ => ""
  }

  /** The repository an image name selects by its prefix. */
  function RepositoryOf(name: string): (repo: RepoType)
    ensures HasPrefix(name, Marker(repo))
  {
    if HasPrefix(name, Marker(SingularityRepository)) then SingularityRepository
    else if HasPrefix(name, Marker(DockerRepository)) then DockerRepository
    else if HasPrefix(name, Marker(LocalRepository)) then LocalRepository
    else if HasPrefix(name, Marker(LocalDefinitionFile)) then LocalDefinitionFile
    else UnknownRepository
  }

  datatype ParsedName = ParsedName(repoType: RepoType, imageName: string, remotePath: string)

  /** What `ParseImage` reads off an accepted name. */
  function ParseName(name: string): Option<ParsedName> {
    var repo := RepositoryOf(name);
    if repo == UnknownRepository then None
    else
      var path := Last(Split(name, Marker(repo)));
      var nameWithVersion := Last(Split(path, "/"));
      Some(ParsedName(repo, Split(nameWithVersion, ":")[0], Scheme(repo) + path))
  }

  /** The name a repository type and a pull path stand for. */
  function NameOf(parsed: ParsedName): string {
    if HasPrefix(parsed.remotePath, Scheme(parsed.repoType))
    then Marker(parsed.repoType) + parsed.remotePath[|Scheme(parsed.repoType)|..]
    else ""
  }

  /** Every repository recognises exactly the names that carry its marker. */
  lemma MarkersSelectOneRepository(repo: RepoType, rest: string)
    requires repo != UnknownRepository
    ensures RepositoryOf(Marker(repo) + rest) == repo
  {
    var name := Marker(repo) + rest;
    assert name[0] == Marker(repo)[0] && name[6] == Marker(repo)[6];
  }

  lemma LastPieceWithoutMarker(repo: RepoType, name: string)
    requires repo != UnknownRepository && HasPrefix(name, Marker(repo))
    ensures Last(Split(name, Marker(repo))) == Last(Split(name[|Marker(repo)|..], Marker(repo)))
  {
    LastAfterPrefix(name, Marker(repo));
  }

  /** The rewriting can be undone exactly for the names whose remainder does not repeat
      the marker; for the others everything up to the last marker is lost. */
  lemma ParseInvertsExactlyWhen(name: string)
    requires ParseName(name).Some?
    ensures var parsed := ParseName(name).value;
            var marker := Marker(parsed.repoType);
            HasPrefix(name, marker) && (NameOf(parsed) == name <==> !Contains(name[|marker|..], marker))
  {
    var parsed := ParseName(name).value;
    var marker := Marker(parsed.repoType);
    var rest, path := name[|marker|..], Last(Split(name, marker));
    LastPieceWithoutMarker(parsed.repoType, name);
    LastPieceIsWhole(rest, marker);
    PrefixCancels(Scheme(parsed.repoType), path, path);
    PrefixCancels(marker, rest, path);
    assert name == marker + rest && NameOf(parsed) == marker + path;
  }

  lemma LastPieceIsWhole(s: string, sep: string)
    requires sep != ""
    ensures Last(Split(s, sep)) == s <==> !Contains(s, sep)
  {
    PiecesHaveNoSeparator(s, sep, |Split(s, sep)| - 1);
  }

  lemma PrefixCancels(p: string, a: string, b: string)
    ensures (p + a)[|p|..] == a && (p + b)[|p|..] == b
    ensures p + a == p + b <==> a == b
  {
  }

  /** Two accepted names with the same repository and pull path are the same name. */
  lemma ParseInjective(a: string, b: string)
    requires ParseName(a).Some? && ParseName(b).Some?
    requires ParseName(a).value.repoType == ParseName(b).value.repoType
    requires ParseName(a).value.remotePath == ParseName(b).value.remotePath
    requires !Contains(a[|Marker(RepositoryOf(a))|..], Marker(RepositoryOf(a)))
    requires !Contains(b[|Marker(RepositoryOf(b))|..], Marker(RepositoryOf(b)))
    ensures a == b
  {
    ParseInvertsExactlyWhen(a);
    ParseInvertsExactlyWhen(b);
  }

  lemma LastPieceFree(s: string, c: char)
    ensures Free(Last(Split(s, [c])), c)
  {
    PiecesHaveNoSeparator(s, [c], |Split(s, [c])| - 1);
    FreeIndex(Last(Split(s, [c])), c);
  }

  lemma SplitStep(s: string, c: char) returns (head: string, tail: string)
    requires Contains(s, [c])
    ensures s == head + tail && head != "" && Last(head) == c
    ensures Last(Split(s, [c])) == Last(Split(tail, [c]))
  {
    var i := Index(s, [c]);
    head, tail := s[..i + 1], s[i + 1..];
    CharOccurs(s, c, i);
    SplitHere(s, [c], i);
  }

  lemma Reassociate(a: string, b: string, c: string)
    ensures a + (b + c) == (a + b) + c
  {
  }

  lemma {:induction false} LastPieceEndsString(s: string, c: char) returns (front: string)
    ensures s == front + Last(Split(s, [c])) && (front == "" || Last(front) == c)
    decreases |s|
  {
    var i := Index(s, [c]);
    if i < 0 {
      front := "";
    } else {
      var head, tail := SplitStep(s, c);
      var rest := LastPieceEndsString(tail, c);
      front := head + rest;
      Reassociate(head, rest, Last(Split(tail, [c])));
    }
  }

  lemma FirstPieceStartsString(s: string, c: char) returns (tail: string)
    ensures s == Split(s, [c])[0] + tail && (tail == "" || tail[0] == c)
    ensures Free(Split(s, [c])[0], c)
  {
    PiecesHaveNoSeparator(s, [c], 0);
    FreeIndex(Split(s, [c])[0], c);
    var i := Index(s, [c]);
    tail := if i < 0 then "" else s[i..];
  }

  /** `base` is the last segment of `path` up to its first colon: `front` is what comes
      before the segment and `tag` what follows the base. */
  predicate BaseNameAt(path: string, front: string, base: string, tag: string) {
    && path == front + (base + tag)
    && (front == "" || Last(front) == '/')
    && (tag == "" || tag[0] == ':')
    && Free(base + tag, '/') && Free(base, ':')
  }

  /** The recorded image name is the base name of the pull path, free of '/' and ':'. */
  lemma ImageNameIsBaseName(name: string) returns (front: string, tag: string)
    requires ParseName(name).Some?
    ensures var parsed := ParseName(name).value;
            BaseNameAt(parsed.remotePath[|Scheme(parsed.repoType)|..], front, parsed.imageName, tag)
  {
    var parsed := ParseName(name).value;
    var path := Last(Split(name, Marker(parsed.repoType)));
    assert parsed.remotePath[|Scheme(parsed.repoType)|..] == path;
    LastPieceFree(path, '/');
    front := LastPieceEndsString(path, '/');
    tag := FirstPieceStartsString(Last(Split(path, "/")), ':');
  }

  lemma NothingAfter(path: string, front: string, rest: string, c: char)
    requires path == front + rest && Free(rest, c)
    ensures forall k :: |front| <= k < |path| ==> path[k] != c
  {
    assert forall k :: |front| <= k < |path| ==> path[k] == rest[k - |front|];
  }

  /** A path has one base name. */
  lemma BaseNameUnique(path: string, f: string, a: string, t: string, g: string, b: string, u: string)
    requires BaseNameAt(path, f, a, t) && BaseNameAt(path, g, b, u)
    ensures a == b
  {
    NothingAfter(path, f, a + t, '/');
    NothingAfter(path, g, b + u, '/');
    assert f != "" ==> path[|f| - 1] == '/';
    assert g != "" ==> path[|g| - 1] == '/';
    var segment := path[|f|..];
    assert segment == a + t == b + u;
    assert t != "" ==> segment[|a|] == ':';
    assert u != "" ==> segment[|b|] == ':';
    assert forall k :: 0 <= k < |a| ==> segment[k] == a[k];
    assert forall k :: 0 <= k < |b| ==> segment[k] == b[k];
    assert |a| == |b|;
    assert a == segment[..|a|] && b == segment[..|b|];
  }

  /** A repeated marker loses text, whatever stands before and after it. */
  lemma RepeatedMarkerLosesText(repo: RepoType, front: string, back: string)
    requires repo != UnknownRepository
    ensures var name := Marker(repo) + (front + Marker(repo) + back);
            ParseName(name).Some? && NameOf(ParseName(name).value) != name
  {
    var marker, rest := Marker(repo), front + Marker(repo) + back;
    MarkersSelectOneRepository(repo, rest);
    ContainsMiddle(front, marker, back);
    ParseInvertsExactlyWhen(marker + rest);
    assert (marker + rest)[|marker|..] == rest;
  }

  /** The four kinds of names, with the texts they start with and are pulled by. */
  predicate Kind(repo: RepoType, marker: string, scheme: string) {
    || (repo == SingularityRepository && marker == "singularity-repository." && scheme == "shub://")
    || (repo == DockerRepository && marker == "docker-repository." && scheme == "docker://")
    || (repo == LocalRepository && marker == "local-image." && scheme == "")
    || (repo == LocalDefinitionFile && marker == "local-def-file." && scheme == "")
  }

  /** A name that does not repeat its marker is accepted, and pulled from Singularity Hub or
      from Docker Hub, or it is the path of a local file. */
  lemma PulledFrom(repo: RepoType, marker: string, scheme: string, rest: string)
    requires Kind(repo, marker, scheme) && !Contains(rest, marker)
    ensures var parsed := ParseName(marker + rest);
            parsed.Some? && parsed.value.repoType == repo && parsed.value.remotePath == scheme + rest
  {
    assert marker == Marker(repo) && scheme == Scheme(repo);
    var name := marker + rest;
    assert name[|marker|..] == rest;
    MarkersSelectOneRepository(repo, rest);
    LastPieceWithoutMarker(repo, name);
    LastPieceIsWhole(rest, marker);
  }

  /** Names that start with none of the four texts are refused. */
  lemma RefusedExactlyWhen(name: string)
    ensures ParseName(name).None? <==>
            forall repo, marker, scheme :: Kind(repo, marker, scheme) ==> !HasPrefix(name, marker)
  {
    var repo := RepositoryOf(name);
    if repo != UnknownRepository {
      assert Kind(repo, Marker(repo), Scheme(repo));
    }
  }
}
