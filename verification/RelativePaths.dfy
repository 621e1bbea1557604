/**
  Relative paths as text and as parts, and the file trees they index.

  Text is split at slashes; empty parts and single dots disappear.  Different texts can therefore name
  the same file.
 */
module RelativePaths {
  import opened Wrappers

  type Path = seq<string>
  type Bytes = seq<bv8>

  // The regular files under a directory; directories are the proper prefixes of their paths.
  type Tree = map<Path, Bytes>

  function Split(s: string): (r: seq<string>)
    ensures |r| > 0
  {
    if s == "" then [""]
    else
      var rest := Split(s[1..]);
      if s[0] == '/' then [""] + rest else [[s[0]] + rest[0]] + rest[1..]
  }

  function Kept(parts: seq<string>): seq<string> {
    if parts == [] then []
    else (if parts[0] in {"", "."} then [] else [parts[0]]) + Kept(parts[1..])
  }

  function Parts(s: string): Path {
    Kept(Split(s))
  }

  function Join(p: Path): string {
    if p == [] then "" else if |p| == 1 then p[0] else p[0] + "/" + Join(p[1..])
  }

  // The last part, or nothing.
  function Name(s: string): string {
    var p := Parts(s);
    if p == [] then "" else p[|p| - 1]
  }

  // What both the indexer and the serving side accept: text that is not empty, has no backslash, is
  // relative and never steps up.
  function SafePath(s: string): Option<Path> {
    if s == "" || '\\' in s || s[0] == '/' || ".." in Parts(s) then None else Some(Parts(s))
  }

  predicate ProperPart(part: string) {
    part !in {"", ".", ".."} && '/' !in part
  }

  // A path under which a directory can hold a file.
  predicate ProperPath(p: Path) {
    p != [] && forall part <- p :: ProperPart(part)
  }

  /******* Text and parts *******/

  lemma {:induction false} SplitPart(part: string)
    requires '/' !in part
    ensures Split(part) == [part]
  {
    if part != "" {
      SplitPart(part[1..]);
      assert part == [part[0]] + part[1..];
    }
  }

  lemma {:induction false} SplitAtSlash(part: string, s: string)
    requires '/' !in part
    ensures Split(part + "/" + s) == [part] + Split(s)
  {
    if part == "" {
      assert (part + "/" + s)[1..] == s;
    } else {
      SplitAtSlash(part[1..], s);
      assert part == [part[0]] + part[1..];
      assert (part + "/" + s)[1..] == part[1..] + "/" + s;
    }
  }

  // Joining a proper path and reading it back gives the path.
  lemma {:induction false} PartsOfJoin(p: Path)
    requires ProperPath(p)
    ensures Join(p) != "" && Parts(Join(p)) == p && Join(p)[0] != '/'
  {
    assert ProperPart(p[0]);
    if |p| == 1 {
      SplitPart(p[0]);
      assert Kept([p[0]]) == [p[0]];
    } else {
      assert ProperPath(p[1..]);
      PartsOfJoin(p[1..]);
      SplitAtSlash(p[0], Join(p[1..]));
      var parts := [p[0]] + Split(Join(p[1..]));
      assert parts[1..] == Split(Join(p[1..]));
      assert p == [p[0]] + p[1..];
    }
  }

  // Only a backslash in a name stands between a proper path and its acceptance.
  lemma SafeOfJoin(p: Path)
    requires ProperPath(p)
    ensures SafePath(Join(p)) == if '\\' in Join(p) then None else Some(p)
  {
    PartsOfJoin(p);
    assert ".." !in p;
  }

  // Splitting undoes joining with slashes, for any parts without slashes.
  lemma {:induction false} SplitOfJoin(parts: seq<string>)
    requires parts != [] && forall part <- parts :: '/' !in part
    ensures Split(Join(parts)) == parts
  {
    if |parts| == 1 {
      SplitPart(parts[0]);
    } else {
      assert forall part <- parts[1..] :: part in parts;
      SplitOfJoin(parts[1..]);
      SplitAtSlash(parts[0], Join(parts[1..]));
      assert parts == [parts[0]] + parts[1..];
    }
  }

  lemma {:induction false} KeptMembers(parts: seq<string>, part: string)
    ensures part in Kept(parts) <==> part in parts && part != "" && part != "."
  {
    if parts != [] {
      KeptMembers(parts[1..], part);
      assert parts == [parts[0]] + parts[1..];
    }
  }

  // A text is accepted exactly if it is not empty, has no backslash, does not begin with a slash and none
  // of its parts between slashes is "..".  Its path consists of the parts that are neither empty nor ".".
  lemma SafePathIff(parts: seq<string>, part: string)
    requires parts != [] && forall x <- parts :: '/' !in x
    ensures var s := Join(parts);
            && (SafePath(s).Some? <==> s != "" && '\\' !in s && s[0] != '/' && ".." !in parts)
            && (SafePath(s).Some? ==> (part in SafePath(s).value <==> part in parts && part != "" && part != "."))
  {
    SplitOfJoin(parts);
    KeptMembers(parts, "..");
    KeptMembers(parts, part);
  }

  lemma {:induction false} KeptOfAppended(parts: seq<string>, last: string)
    requires last !in {"", "."}
    ensures Kept(parts + [last]) == Kept(parts) + [last]
  {
    if parts == [] {
      assert Kept([last]) == [last] + Kept([]);
    } else {
      assert (parts + [last])[1..] == parts[1..] + [last];
      KeptOfAppended(parts[1..], last);
    }
  }

  lemma {:induction false} SplitAppended(s: string, last: string)
    requires '/' !in last
    ensures Split(s + "/" + last) == Split(s) + [last]
  {
    if s == "" {
      SplitPart(last);
      assert (s + "/" + last)[1..] == last;
    } else {
      assert (s + "/" + last)[1..] == s[1..] + "/" + last;
      SplitAppended(s[1..], last);
    }
  }

  // Whatever comes before the last slash, the name is what comes after it.
  lemma NameOfAppended(s: string, last: string)
    requires ProperPart(last)
    ensures Name(s + "/" + last) == last
  {
    SplitAppended(s, last);
    KeptOfAppended(Split(s), last);
  }

  /******* File trees *******/

  // As a file system holds it: proper names, and no path is both a file and a directory.
  ghost predicate ProperTree(t: Tree) {
    && (forall p <- t :: ProperPath(p))
    && forall p, q | p in t && q in t :: !(p < q)
  }

  // A file can be created or replaced unless it, or a part of its path, is of the other kind.
  predicate Writable(t: Tree, p: Path) {
    p != [] && forall q <- t :: !(p < q) && !(q < p)
  }
}
