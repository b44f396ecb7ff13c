/** Session keys and the files they name (claude-agent-sdk/src/session_store.rs).

    Paths are lists of components relative to a projects root, on Unix. */
module SessionPaths {
  import opened Common
  import opened Text

  const JSONL := ".jsonl"
  const META := ".meta.json"

  datatype SessionKey = SessionKey(projectKey: string, sessionId: string, subpath: Option<string>)

  type Path = seq<string>

  datatype PathError = InvalidSegment | EmptySubpath | UnsafeSubpath

  predicate ValidSegment(value: string) {
    value != "" && value != "." && value != ".." && '/' !in value && '\\' !in value && '\0' !in value
  }

  // ---- Path components ----

  datatype Component = RootDir | CurDir | ParentDir | Normal(name: string)

  /** A name that is a component of its own. */
  predicate PlainName(name: string) {
    name != "" && name != "." && name != ".." && '/' !in name
  }

  /** The components of the pieces between slashes. Empty pieces vanish, and so does every dot
      but a leading one. */
  function ComponentsOf(pieces: seq<string>, leading: bool): (components: seq<Component>)
    ensures |components| <= |pieces|
  {
    if pieces == [] then []
    else
      var rest := ComponentsOf(pieces[1..], false);
      if pieces[0] == "" then rest
      else if pieces[0] == "." then if leading then [CurDir] + rest else rest
      else if pieces[0] == ".." then [ParentDir] + rest
      else [Normal(pieces[0])] + rest
  }

  /** `Path::components` on Unix. */
  function Components(text: string): seq<Component> {
    (if text != "" && text[0] == '/' then [RootDir] else []) + ComponentsOf(Split(text, '/'), true)
  }

  function Normals(names: seq<string>): (components: seq<Component>)
    ensures |components| == |names|
  {
    if names == [] then [] else [Normal(names[0])] + Normals(names[1..])
  }

  predicate AllNormal(components: seq<Component>) {
    forall i :: 0 <= i < |components| ==> components[i].Normal?
  }

  function Names(components: seq<Component>): (names: seq<string>)
    requires AllNormal(components)
    ensures |names| == |components| && forall i :: 0 <= i < |names| ==> names[i] == components[i].name
  {
    seq(|components|, i requires 0 <= i < |components| => components[i].name)
  }

  lemma {:induction false} NamesOfNormals(names: seq<string>)
    ensures AllNormal(Normals(names)) && Names(Normals(names)) == names
  {
    if names != [] {
      NamesOfNormals(names[1..]);
      var components, rest := Normals(names), Normals(names[1..]);
      forall i | 0 <= i < |components|
        ensures components[i] == Normal(names[i])
      {
        if i > 0 {
          assert components[i] == rest[i - 1] && Names(rest)[i - 1] == names[1..][i - 1];
        }
      }
    }
  }

  /** Pieces are their own components exactly when each is a plain name. */
  lemma {:induction false} PlainPieces(pieces: seq<string>, leading: bool)
    requires forall p :: p in pieces ==> '/' !in p
    ensures ComponentsOf(pieces, leading) == Normals(pieces) <==> forall p :: p in pieces ==> PlainName(p)
  {
    if pieces != [] {
      PlainPieces(pieces[1..], false);
      assert forall p :: p in pieces <==> p == pieces[0] || p in pieces[1..];
      var all, rest, plain := ComponentsOf(pieces, leading), ComponentsOf(pieces[1..], false), Normals(pieces);
      assert plain[0] == Normal(pieces[0]) && plain[1..] == Normals(pieces[1..]);
      if PlainName(pieces[0]) {
        assert all[1..] == rest;
      } else if pieces[0] == "" || (pieces[0] == "." && !leading) {
        assert |all| < |plain|;
      } else {
        assert all[0] != plain[0];
      }
    }
  }

  /** Every normal component is a plain name made of characters of the text. */
  lemma {:induction false} ComponentNames(pieces: seq<string>, leading: bool, k: nat)
    requires forall p :: p in pieces ==> '/' !in p
    requires k < |ComponentsOf(pieces, leading)| && ComponentsOf(pieces, leading)[k].Normal?
    ensures PlainName(ComponentsOf(pieces, leading)[k].name) && ComponentsOf(pieces, leading)[k].name in pieces
  {
    var all, rest := ComponentsOf(pieces, leading), ComponentsOf(pieces[1..], false);
    assert pieces[0] in pieces && forall p :: p in pieces[1..] ==> p in pieces;
    if |all| == |rest| {
      ComponentNames(pieces[1..], false, k);
    } else if k > 0 {
      assert all[k] == rest[k - 1];
      ComponentNames(pieces[1..], false, k - 1);
    }
  }

  // ---- Subpaths ----

  function NormalizedSubpath(value: string): (r: Result<seq<string>, PathError>) {
    if value == "" || '\\' in value then Err(EmptySubpath)
    else
      var components := Components(value);
      if !AllNormal(components) then Err(UnsafeSubpath)
      else if components == [] then Err(EmptySubpath)
      else Ok(Names(components))
  }

  predicate SafeName(name: string) {
    PlainName(name) && '\\' !in name
  }

  lemma RootedIsNotNormal(value: string)
    ensures value != "" && value[0] == '/' ==> Components(value) != [] && Components(value)[0] == RootDir
    ensures !(value != "" && value[0] == '/') ==> Components(value) == ComponentsOf(Split(value, '/'), true)
  {
    var below := ComponentsOf(Split(value, '/'), true);
    assert ([RootDir] + below)[0] == RootDir && [] + below == below;
  }

  /** What normalization accepts is a non-empty list of names that can not leave the directory. */
  lemma NormalizedIsSafe(value: string)
    requires NormalizedSubpath(value).Ok?
    ensures NormalizedSubpath(value).value != []
    ensures forall p :: p in NormalizedSubpath(value).value ==> SafeName(p)
  {
    var components := Components(value);
    var names := Names(components);
    RootedIsNotNormal(value);
    assert components == ComponentsOf(Split(value, '/'), true);
    forall k | 0 <= k < |names|
      ensures SafeName(names[k])
    {
      ComponentNames(Split(value, '/'), true, k);
    }
  }

  /** Joining safe names and normalizing gives the names back; no other names come back whole. */
  lemma NormalizedJoin(names: seq<string>)
    requires names != [] && forall p :: p in names ==> '/' !in p
    ensures NormalizedSubpath(Join(names, '/')) == Ok(names) <==> forall p :: p in names ==> SafeName(p)
  {
    var text := Join(names, '/');
    SplitJoin(names, '/');
    PlainPieces(names, true);
    NamesOfNormals(names);
    if forall p :: p in names ==> SafeName(p) {
      SafeText(names);
      assert Components(text) == [] + Normals(names) == Normals(names);
    }
    if NormalizedSubpath(text) == Ok(names) {
      NormalizedIsSafe(text);
    }
  }

  /** Safe names joined: not empty, not absolute, no backslash. */
  lemma SafeText(names: seq<string>)
    requires names != [] && forall p :: p in names ==> SafeName(p)
    ensures var text := Join(names, '/'); text != "" && text[0] != '/' && '\\' !in text
  {
    var text := Join(names, '/');
    assert SafeName(names[0]) && text[0] == names[0][0];
    if '\\' in text {
      JoinChars(names, '/', '\\');
    }
  }

  // ---- Files of a key ----

  function WithSuffix(path: Path, suffix: string): (r: Path)
    requires path != []
    ensures |r| == |path|
  {
    path[..|path| - 1] + [path[|path| - 1] + suffix]
  }

  /** The names below the project directory, without the file suffix. */
  function KeyNames(key: SessionKey): Result<Path, PathError> {
    if !ValidSegment(key.projectKey) || !ValidSegment(key.sessionId) then Err(InvalidSegment)
    else
      match key.subpath
      case None => Ok([key.projectKey, key.sessionId])
      case Some(subpath) =>
        match NormalizedSubpath(subpath)
        case Err(e) => Err(e)
        case Ok(names) => Ok([key.projectKey, key.sessionId] + names)
  }

  function PathForKey(key: SessionKey): Result<Path, PathError> {
    match KeyNames(key)
    case Err(e) => Err(e)
    case Ok(names) => Ok(WithSuffix(names, JSONL))
  }

  /** The sidecar of a subagent transcript; main transcripts have none. */
  function MetadataPathForKey(key: SessionKey): Option<Path> {
    match KeyNames(key)
    case Err(_) => None
    case Ok(names) => if key.subpath.None? then None else Some(WithSuffix(names, META))
  }

  lemma KeyNamesArePlain(key: SessionKey)
    requires KeyNames(key).Ok?
    ensures |KeyNames(key).value| >= 2 && (key.subpath.None? <==> |KeyNames(key).value| == 2)
    ensures forall p :: p in KeyNames(key).value ==> SafeName(p)
  {
    if key.subpath.Some? {
      NormalizedIsSafe(key.subpath.value);
    }
  }

  lemma SuffixInjective(p: Path, q: Path, suffix: string)
    requires p != [] && q != []
    ensures WithSuffix(p, suffix) == WithSuffix(q, suffix) <==> p == q
  {
    var a, b := WithSuffix(p, suffix), WithSuffix(q, suffix);
    if a == b {
      var n := |p| - 1;
      assert p[..n] == a[..n] && q[..n] == b[..n];
      SuffixAppend(p[n], suffix);
      SuffixAppend(q[n], suffix);
      assert a[n] == p[n] + suffix && b[n] == q[n] + suffix;
      assert p == p[..n] + [p[n]] && q == q[..n] + [q[n]];
    }
  }

  /** Two keys share a transcript file exactly when they have the same names; transcripts and
      sidecars never collide. */
  lemma KeysShareFilesByName(a: SessionKey, b: SessionKey)
    requires KeyNames(a).Ok? && KeyNames(b).Ok?
    ensures PathForKey(a) == PathForKey(b) <==> KeyNames(a) == KeyNames(b)
    ensures MetadataPathForKey(a).Some? && MetadataPathForKey(b).Some? ==>
              (MetadataPathForKey(a) == MetadataPathForKey(b) <==> KeyNames(a) == KeyNames(b))
    ensures MetadataPathForKey(a) != Some(PathForKey(b).value)
  {
    KeyNamesArePlain(a);
    KeyNamesArePlain(b);
    SuffixInjective(KeyNames(a).value, KeyNames(b).value, JSONL);
    SuffixInjective(KeyNames(a).value, KeyNames(b).value, META);
    SuffixesDiffer(KeyNames(a).value, KeyNames(b).value);
  }

  lemma SuffixesDiffer(p: Path, q: Path)
    requires p != [] && q != []
    ensures WithSuffix(p, META) != WithSuffix(q, JSONL)
  {
    var a, b := p[|p| - 1] + META, q[|q| - 1] + JSONL;
    assert a[|a| - 1] == 'n' && b[|b| - 1] == 'l';
    assert WithSuffix(p, META)[|p| - 1] == a && WithSuffix(q, JSONL)[|q| - 1] == b;
  }

  // ---- Keys of mirrored files ----

  function StripJsonl(name: string): string {
    if EndsWith(name, JSONL) then StripSuffix(name, JSONL) else name
  }

  /** The key a mirrored file belongs to, from its components relative to the root. */
  function KeyOfParts(parts: seq<string>): Option<SessionKey> {
    if |parts| < 2 || "" in parts then None
    else
      var file := parts[|parts| - 1];
      if |parts| == 2 && EndsWith(file, JSONL) then
        Some(SessionKey(parts[0], StripSuffix(file, JSONL), None))
      else if |parts| < 4 then None
      else
        Some(SessionKey(parts[0], parts[1], Some(Join(parts[2..|parts| - 1] + [StripJsonl(file)], '/'))))
  }

  function PartText(c: Component): string {
    if c.Normal? then c.name else ""
  }

  function SessionKeyFromMirrorPath(file: seq<Component>, root: seq<Component>): Option<SessionKey> {
    if !(root <= file) then None
    else KeyOfParts(seq(|file| - |root|, i requires 0 <= i < |file| - |root| => PartText(file[|root| + i])))
  }

  /** The file of a path below a root. */
  function Under(root: seq<Component>, path: Path): seq<Component> {
    root + Normals(path)
  }

  lemma {:induction false} MirrorOfPath(root: seq<Component>, path: Path)
    ensures SessionKeyFromMirrorPath(Under(root, path), root) == KeyOfParts(path)
  {
    NamesOfNormals(path);
    var file := Under(root, path);
    var parts := seq(|file| - |root|, i requires 0 <= i < |file| - |root| => PartText(file[|root| + i]));
    forall i | 0 <= i < |path|
      ensures parts[i] == path[i]
    {
      var normals := Normals(path);
      assert file[|root| + i] == normals[i] && Names(normals)[i] == normals[i].name == path[i];
      assert parts[i] == PartText(file[|root| + i]);
    }
    assert parts == path;
  }

  /** A mirrored file has a key exactly when it lies below the root, in directories and under a name
      that are plain, and is either the `.jsonl` file of a session or at least two levels below the
      directory of one. */
  lemma MirroredFileHasKey(file: seq<Component>, root: seq<Component>)
    ensures SessionKeyFromMirrorPath(file, root).Some? <==>
            && |root| <= |file| && file[..|root|] == root
            && (forall i :: |root| <= i < |file| ==> file[i].Normal? && file[i].name != "")
            && (|file| - |root| >= 4 || (|file| - |root| == 2 && EndsWith(file[|file| - 1].name, JSONL)))
  {
    if root <= file {
      var parts := seq(|file| - |root|, i requires 0 <= i < |file| - |root| => PartText(file[|root| + i]));
      assert forall i :: 0 <= i < |parts| ==> parts[i] == PartText(file[|root| + i]);
      assert "" in parts <==> exists i :: |root| <= i < |file| && PartText(file[i]) == "" by {
        if i :| |root| <= i < |file| && PartText(file[i]) == "" {
          assert parts[i - |root|] == "";
        }
      }
    }
  }

  /** Reading a key back from the file it names: a main key comes back as it was, a subagent key
      with two or more components comes back with its subpath in normal form, and one with a
      single component is not recognized. Names that end in `.jsonl` themselves are no exception. */
  lemma MirrorUndoesPathForKey(root: seq<Component>, key: SessionKey)
    requires PathForKey(key).Ok?
    ensures var mirrored := SessionKeyFromMirrorPath(Under(root, PathForKey(key).value), root);
            match key.subpath
            case None => mirrored == Some(key)
            case Some(subpath) =>
              var names := NormalizedSubpath(subpath).value;
              mirrored == if |names| == 1 then None else Some(key.(subpath := Some(Join(names, '/'))))
  {
    var names, path := KeyNames(key).value, PathForKey(key).value;
    MirrorOfPath(root, path);
    KeyNamesArePlain(key);
    var n := |names| - 1;
    SuffixAppend(names[n], JSONL);
    forall i | 0 <= i < |path|
      ensures path[i] != ""
    {
      assert SafeName(names[i]) && (i < n ==> path[i] == names[i]);
    }
    assert path[n] == names[n] + JSONL;
    if key.subpath.Some? {
      var below := NormalizedSubpath(key.subpath.value).value;
      assert names[2..] == below && |names| == 2 + |below|;
      assert names[2..n] + [names[n]] == below;
      assert path[2..n] == names[2..n];
    }
  }

  /** In the other direction, a mirrored file is the file of its key, up to the suffix, exactly
      when its directories are valid segments and what is left of its name can stand alone. */
  lemma PathForMirroredKey(parts: seq<string>)
    requires KeyOfParts(parts).Some? && forall p :: p in parts ==> '/' !in p
    ensures var n := |parts| - 1;
            PathForKey(KeyOfParts(parts).value) == Ok(parts[..n] + [StripJsonl(parts[n]) + JSONL]) <==>
            if n == 1 then ValidSegment(parts[0]) && ValidSegment(StripJsonl(parts[1]))
            else ValidSegment(parts[0]) && ValidSegment(parts[1])
                 && forall p :: p in parts[2..n] + [StripJsonl(parts[n])] ==> SafeName(p)
  {
    var n := |parts| - 1;
    var key, last := KeyOfParts(parts).value, StripJsonl(parts[n]);
    assert '/' !in last by {
      assert parts[n] in parts && forall c :: c in last ==> c in parts[n];
    }
    var target := parts[..n] + [last];
    assert target[n] == last && target[..n] == parts[..n];
    assert WithSuffix(target, JSONL) == parts[..n] + [last + JSONL];
    if n == 1 {
      assert target == [parts[0], last];
    } else {
      var below := parts[2..n] + [last];
      assert forall p :: p in below ==> p in parts || p == last;
      NormalizedJoin(below);
      assert target == [parts[0], parts[1]] + below;
      if KeyNames(key).Ok? {
        var names := NormalizedSubpath(Join(below, '/')).value;
        KeyNamesArePlain(key);
        SuffixInjective(KeyNames(key).value, target, JSONL);
        assert KeyNames(key).value[2..] == names && target[2..] == below;
      }
    }
  }

  /** Two mirrored files belong to the same key exactly when they differ at most in one `.jsonl`
      at the end: the file `a` and the file `a.jsonl` are one subagent. */
  lemma SameMirrorKey(p: seq<string>, q: seq<string>)
    requires KeyOfParts(p).Some? && KeyOfParts(q).Some?
    requires (forall x :: x in p ==> '/' !in x) && (forall x :: x in q ==> '/' !in x)
    ensures KeyOfParts(p) == KeyOfParts(q) <==>
            |p| == |q| && p[..|p| - 1] == q[..|q| - 1] && StripJsonl(p[|p| - 1]) == StripJsonl(q[|q| - 1])
  {
    if KeyOfParts(p) == KeyOfParts(q) && |p| > 2 {
      SplitMirrorSubpath(p);
      SplitMirrorSubpath(q);
      var m, n := |p| - 1, |q| - 1;
      var below, other := p[2..m] + [StripJsonl(p[m])], q[2..n] + [StripJsonl(q[n])];
      assert below == other;
      assert below[..m - 2] == p[2..m] && other[..n - 2] == q[2..n];
      assert p[..m] == [p[0], p[1]] + p[2..m] && q[..n] == [q[0], q[1]] + q[2..n];
      assert below[m - 2] == other[n - 2];
    } else if KeyOfParts(p) == KeyOfParts(q) {
      assert p[..1] == [p[0]] && q[..1] == [q[0]];
    } else if |p| == |q| && p[..|p| - 1] == q[..|q| - 1] {
      assert p[0] == p[..|p| - 1][0] == q[0];
      if |p| > 2 {
        assert p[1] == p[..|p| - 1][1] == q[1];
        assert p[2..|p| - 1] == p[..|p| - 1][2..] == q[2..|q| - 1];
      }
    }
  }

  lemma SplitMirrorSubpath(p: seq<string>)
    requires |p| >= 4 && KeyOfParts(p).Some? && forall x :: x in p ==> '/' !in x
    ensures Split(KeyOfParts(p).value.subpath.value, '/') == p[2..|p| - 1] + [StripJsonl(p[|p| - 1])]
  {
    var n := |p| - 1;
    var below := p[2..n] + [StripJsonl(p[n])];
    forall x | x in below
      ensures '/' !in x
    {
      assert p[n] in p && (x in p || x == StripJsonl(p[n]));
      assert forall c :: c in StripJsonl(p[n]) ==> c in p[n];
    }
    SplitJoin(below, '/');
  }
}
