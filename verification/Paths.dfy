/** Library paths: resolving the `/`-separated strings plans are written in, and the parts of a
    file name. Paths are Unix paths, as `std::path` reads them: empty parts and single dots say
    nothing, and a part that would lead out of the library makes a name unsafe. A file name has a
    stem and, after its last dot unless it starts with it, an extension, which tells audio files
    from their companions. */
module Paths {
  import opened Text

  /** A path below the library root, one name per level. */
  type Parts = seq<string>

  /** A file's place: still in a job's staging folder, or below the library root. */
  datatype Place = Staged(name: string) | Library(parts: Parts)

  /** The folder of all batches, at the top of the library. */
  const TRASH: string := ".delune-trash"

  predicate IsName(name: string) {
    name != "" && name != "." && name != ".." && '/' !in name
  }

  predicate AreNames(parts: Parts) {
    parts != [] && forall name :: name in parts ==> IsName(name)
  }

  /** The components `std::path` finds: empty pieces don't count, nor `.` after the first. */
  function Significant(pieces: seq<string>): (parts: Parts)
    ensures forall name :: name in parts <==> name in pieces && name != "" && name != "."
  {
    if pieces == [] then []
    else (if pieces[0] == "" || pieces[0] == "." then [] else [pieces[0]]) + Significant(pieces[1..])
  }

  /** A relative path made of plain names only, or nothing. */
  function Resolve(relative: string): (r: Option<Parts>)
    ensures r.Some? ==> AreNames(r.value)
  {
    var pieces := Split(relative, '/');
    if relative == "" || relative[0] == '/' || pieces[0] == "." || ".." in pieces then None
    else
      assert pieces[0] != "";
      assert pieces[0] in pieces;
      Some(Significant(pieces))
  }

  /** A library path that isn't in the trash. */
  predicate IsLibrary(parts: Parts) {
    parts != [] && parts[0] != TRASH
  }

  lemma {:induction false} AllSignificant(pieces: seq<string>)
    requires forall name :: name in pieces ==> IsName(name)
    ensures Significant(pieces) == pieces
  {
    if pieces != [] {
      assert pieces[0] in pieces;
      AllSignificant(pieces[1..]);
    }
  }

  /** Names joined with `/` resolve to themselves. */
  lemma ResolveJoin(parts: Parts)
    requires AreNames(parts)
    ensures Resolve(Join(parts, "/")) == Some(parts)
  {
    SplitJoin(parts, '/');
    AllSignificant(parts);
    var s := Join(parts, "/");
    assert parts[0] in parts;
    assert s != "" && s[0] != '/' by {
      assert s[0] == parts[0][0];
      assert parts[0][0] in parts[0];
    }
  }

  // ---- file names ----

  function Folder(parts: Parts): Parts {
    if parts == [] then [] else parts[..|parts| - 1]
  }

  function FileName(parts: Parts): string {
    if parts == [] then "" else parts[|parts| - 1]
  }

  /** Where the last dot is. */
  function LastDot(name: string): (dot: Option<nat>)
    ensures dot.Some? ==> dot.value < |name| && name[dot.value] == '.' && '.' !in name[dot.value + 1..]
    ensures dot.None? ==> '.' !in name
  {
    if name == "" then None
    else if name[|name| - 1] == '.' then Some(|name| - 1)
    else
      var dot := LastDot(name[..|name| - 1]);
      if dot.Some? then assert name[dot.value + 1..] == name[..|name| - 1][dot.value + 1..] + [name[|name| - 1]]; dot
      else assert name == name[..|name| - 1] + [name[|name| - 1]]; dot
  }

  /** The name without its extension; a leading dot starts no extension. */
  function Stem(name: string): string {
    var dot := LastDot(name);
    if dot.None? || dot.value == 0 then name else name[..dot.value]
  }

  function Extension(name: string): Option<string> {
    var dot := LastDot(name);
    if dot.None? || dot.value == 0 then None else Some(name[dot.value + 1..])
  }

  const AUDIO: seq<string> := ["flac", "alac", "wav", "aif", "aiff", "mp3", "m4a", "aac", "opus", "ogg", "oga", "wv", "ape"]

  predicate IsAudio(name: string) {
    Extension(name).Some? && ToAsciiLower(Extension(name).value) in AUDIO
  }

  predicate IsHidden(name: string) {
    name != "" && name[0] == '.'
  }

  lemma LastDotIs(name: string, dot: nat)
    requires dot < |name| && name[dot] == '.' && '.' !in name[dot + 1..]
    ensures LastDot(name) == Some(dot)
  {
    assert name[dot] in name;
  }

  /** A stem and an extension without a dot come apart again. */
  lemma NameParts(stem: string, extension: string)
    requires stem != "" && '.' !in extension
    ensures Stem(stem + "." + extension) == stem && Extension(stem + "." + extension) == Some(extension)
  {
    var name := stem + "." + extension;
    assert name[|stem| + 1..] == extension;
    LastDotIs(name, |stem|);
    assert name[..|stem|] == stem;
  }
}
