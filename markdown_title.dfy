/** The title that md-to-html.js gives a rendered Markdown file: the last
    segment of its path, without the first ".md", with the first character
    upper-cased and every later hyphen turned into a space. */
module MarkdownTitle {
  import opened Wrappers

  /** Only 7-bit characters: `toUpperCase` on them keeps the length. */
  predicate IsAscii(s: string)
  {
    forall c :: c in s ==> c as int < 128
  }

  /** `path.split("/").pop()`: the text after the last "/", or the whole path
      when it has none. */
  function LastSegment(path: string): (name: string)
    ensures '/' !in name
    ensures forall c :: c in name ==> c in path
    ensures |name| <= |path| && name == path[|path| - |name|..]
    ensures forall k :: |path| - |name| <= k < |path| ==> path[k] != '/'
    ensures |name| == |path| || path[|path| - |name| - 1] == '/'
  {
    if path == [] || path[|path| - 1] == '/' then []
    else LastSegment(path[..|path| - 1]) + [path[|path| - 1]]
  }

  /** ".md" starts at index `i` of `s`. */
  predicate ExtensionAt(s: string, i: int)
  {
    0 <= i && i + 3 <= |s| && s[i] == '.' && s[i + 1] == 'm' && s[i + 2] == 'd'
  }

  /** The index of the first ".md" in `s`, if any. */
  function FindExtension(s: string): (r: Option<nat>)
    ensures r.None? ==> forall i :: !ExtensionAt(s, i)
    ensures r.Some? ==> ExtensionAt(s, r.value) && forall i :: 0 <= i < r.value ==> !ExtensionAt(s, i)
  {
    if |s| < 3 then None
    else if ExtensionAt(s, 0) then Some(0)
    else
      var rest := FindExtension(s[1..]);
      assert forall i :: 1 <= i ==> (ExtensionAt(s, i) <==> ExtensionAt(s[1..], i - 1));
      if rest.None? then None else Some(rest.value + 1)
  }

  /** `name.replace(".md", "")`: only the first occurrence is removed; a name
      without one is returned as it is. */
  function RemoveExtension(name: string): (r: string)
    ensures FindExtension(name).None? ==> r == name
    ensures FindExtension(name).Some? ==>
              var i := FindExtension(name).value;
              |r| == |name| - 3 && r[..i] == name[..i] && r[i..] == name[i + 3..]
    ensures multiset(r) <= multiset(name)
  {
    match FindExtension(name)
    case None => name
    case Some(i) =>
      assert name == name[..i] + name[i..i + 3] + name[i + 3..];
      name[..i] + name[i + 3..]
  }

  /** `fileName` of `convertAndDisplayMarkdown`: every character of it comes
      from the last segment of the path, so it is never "/" and it is 7-bit
      when the path is. */
  function FileName(path: string): (name: string)
    ensures forall c :: c in name ==> c in path && c != '/'
  {
    var last := LastSegment(path);
    var r := RemoveExtension(last);
    assert forall c :: c in r ==> c in last by {
      forall c | c in r ensures c in last {
        assert c in multiset(r);
      }
    }
    r
  }

  /** The file name of "dir/name" is `name` when `name` holds no "/". */
  lemma LastSegmentAfterSlash(dir: string, name: string)
    requires '/' !in name
    ensures LastSegment(dir + "/" + name) == name
  {
    var p := dir + "/" + name;
    assert p[|p| - |name| - 1] == '/';
    assert forall k :: |p| - |name| <= k < |p| ==> p[k] == name[k - (|p| - |name|)];
  }

  /** `toUpperCase` of one 7-bit character: "a" to "z" become "A" to "Z",
      every other 7-bit character is kept. */
  function UpperAscii(c: char): (u: char)
    ensures 'a' <= c <= 'z' ==> u as int == c as int - 32
    ensures !('a' <= c <= 'z') ==> u == c
  {
    if 'a' <= c <= 'z' then (c as int - 32) as char else c
  }

  /** `s.replace(/-/g, " ")`: every hyphen becomes a space, nothing else changes. */
  function HyphensToSpaces(s: string): (r: string)
    ensures |r| == |s|
    ensures forall i :: 0 <= i < |s| ==> r[i] == if s[i] == '-' then ' ' else s[i]
    ensures forall c :: c in r ==> c == ' ' || c in s
  {
    if s == [] then []
    else [if s[0] == '-' then ' ' else s[0]] + HyphensToSpaces(s[1..])
  }

  /** The title made from a file name: as long as the name, its first
      character upper-cased and never turned into a space, every later hyphen
      a space and every other later character kept; a "/" only if the name
      has one. */
  function TitleCase(fileName: string): (title: string)
    requires IsAscii(fileName)
    ensures |title| == |fileName|
    ensures title != [] ==> title[0] == UpperAscii(fileName[0])
    ensures forall i :: 1 <= i < |title| ==>
              title[i] == if fileName[i] == '-' then ' ' else fileName[i]
    ensures '/' in title ==> '/' in fileName
  {
    if fileName == [] then []
    else
      var head, tail := UpperAscii(fileName[0]), HyphensToSpaces(fileName[1..]);
      assert '/' in [head] + tail ==> '/' in fileName by {
        assert fileName[0] in fileName;
        assert forall c :: c in fileName[1..] ==> c in fileName;
      }
      [head] + tail
  }

  /** The `title` of `convertAndDisplayMarkdown`: the title case of the file
      name, which never holds a "/". */
  function Title(path: string): (title: string)
    requires IsAscii(path)
    ensures |title| == |FileName(path)|
    ensures title != [] ==> title[0] == UpperAscii(FileName(path)[0])
    ensures forall i :: 1 <= i < |title| ==>
              title[i] == if FileName(path)[i] == '-' then ' ' else FileName(path)[i]
    ensures '/' !in title
  {
    var fileName := FileName(path);
    assert IsAscii(fileName) && '/' !in fileName;
    TitleCase(fileName)
  }

  /** A path ending in "/" names no file, and its title is empty. */
  lemma EmptyTitleForDirectory(path: string)
    requires IsAscii(path) && path != [] && path[|path| - 1] == '/'
    ensures Title(path) == []
  {
  }

  /** A link "dir/name" is titled from `name` alone. */
  lemma FileNameAfterSlash(dir: string, name: string)
    requires '/' !in name
    ensures FileName(dir + "/" + name) == RemoveExtension(name)
  {
    LastSegmentAfterSlash(dir, name);
  }

  /** Only the first ".md" goes: when `stem` holds none, "stem.md" followed by
      anything loses exactly that ".md"; so "a.md.md" names the file "a.md". */
  lemma FirstExtensionRemoved(stem: string, rest: string)
    requires forall i :: !ExtensionAt(stem, i)
    ensures RemoveExtension(stem + ".md" + rest) == stem + rest
  {
    var s := stem + ".md" + rest;
    assert ExtensionAt(s, |stem|);
    forall i | 0 <= i < |stem| ensures !ExtensionAt(s, i) {
      if i + 3 <= |stem| {
        assert s[i..i + 3] == stem[i..i + 3];
        assert !ExtensionAt(stem, i);
      }
    }
    assert s[..|stem|] + s[|stem| + 3..] == stem + rest;
  }
}
