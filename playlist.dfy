/** Playlist entries and the pure sequence operations the player applies to
    its playlist: building tracks from picked file paths, and removing the
    entry at one position while keeping the order of the others. */
module Playlist {

  /** One playlist entry. It is built once, when its file is imported, and
      never changed afterwards. The resolved playable URL is not kept: it is
      a function of `filePath` computed by the host. */
  datatype Track = Track(id: int, name: string, filePath: string)

  /** Both path separators the importer splits on: `/` and `\`. */
  predicate IsSeparator(ch: char) {
    ch == '/' || ch == '\\'
  }

  /** The text after the last separator of `path` (all of `path` when it has
      none), i.e. the last piece of splitting `path` at every separator. */
  function LastSegment(path: string): (seg: string)
    ensures |seg| <= |path|
  {
    if path == [] then []
    else if IsSeparator(path[|path| - 1]) then []
    else LastSegment(path[..|path| - 1]) + [path[|path| - 1]]
  }

  /** The last segment is the longest suffix of the path without a
      separator: it is a suffix, it holds no separator, and the character
      before it, if any, is a separator. */
  lemma {:induction false} LastSegmentSpec(path: string)
    ensures var seg := LastSegment(path);
            && |seg| <= |path| && seg == path[|path| - |seg|..]
            && (forall i :: 0 <= i < |seg| ==> !IsSeparator(seg[i]))
            && (|seg| < |path| ==> IsSeparator(path[|path| - |seg| - 1]))
  {
    if path != [] && !IsSeparator(path[|path| - 1]) {
      var init := path[..|path| - 1];
      LastSegmentSpec(init);
      var seg := LastSegment(init);
      assert LastSegment(path) == seg + [path[|path| - 1]];
      assert init[|init| - |seg|..] + [path[|path| - 1]] == path[|path| - |seg| - 1..];
    }
  }

  /** The display name of an imported file: its last path segment, or
      "Unknown" when that segment is empty. */
  function TrackName(path: string): (name: string)
    ensures name != []
  {
    var seg := LastSegment(path);
    if seg == [] then "Unknown" else seg
  }

  /** Appending a character that is not a separator extends the last segment. */
  lemma {:induction false} LastSegmentSnoc(path: string, ch: char)
    requires !IsSeparator(ch)
    ensures LastSegment(path + [ch]) == LastSegment(path) + [ch]
  {
    assert (path + [ch])[..|path + [ch]| - 1] == path;
  }

  /** A file name placed after a directory and a separator is recovered as
      the last segment, whatever the directory holds. */
  lemma {:induction false} LastSegmentOfJoin(dir: string, sep: char, file: string)
    requires IsSeparator(sep)
    requires forall i :: 0 <= i < |file| ==> !IsSeparator(file[i])
    ensures LastSegment(dir + [sep] + file) == file
  {
    if file == [] {
      assert dir + [sep] + file == dir + [sep];
    } else {
      var init := file[..|file| - 1];
      var last := file[|file| - 1];
      assert file == init + [last];
      assert dir + [sep] + file == (dir + [sep] + init) + [last];
      LastSegmentOfJoin(dir, sep, init);
      LastSegmentSnoc(dir + [sep] + init, last);
    }
  }

  /** The name of a track is "Unknown" when the path is empty or ends in a
      separator, and otherwise the longest separator-free suffix of the path;
      it is "Unknown" exactly when the last segment is empty or is itself
      "Unknown". */
  lemma {:induction false} TrackNameCases(path: string)
    ensures TrackName(path) == "Unknown" <==> LastSegment(path) == [] || LastSegment(path) == "Unknown"
    ensures (path == [] || IsSeparator(path[|path| - 1])) ==> TrackName(path) == "Unknown"
    ensures !(path == [] || IsSeparator(path[|path| - 1])) ==>
              var name := TrackName(path);
              && name == LastSegment(path)
              && |name| <= |path| && name == path[|path| - |name|..]
              && (forall i :: 0 <= i < |name| ==> !IsSeparator(name[i]))
              && (|name| < |path| ==> IsSeparator(path[|path| - |name| - 1]))
  {
    LastSegmentSpec(path);
    if path != [] && !IsSeparator(path[|path| - 1]) {
      assert LastSegment(path) == LastSegment(path[..|path| - 1]) + [path[|path| - 1]];
      assert TrackName(path) == LastSegment(path);
    }
  }

  /** A full path `dir/file` is named after `file`. */
  lemma TrackNameOfJoin(dir: string, sep: char, file: string)
    requires IsSeparator(sep) && file != []
    requires forall i :: 0 <= i < |file| ==> !IsSeparator(file[i])
    ensures TrackName(dir + [sep] + file) == file
  {
    LastSegmentOfJoin(dir, sep, file);
  }

  /** One new track per picked path, in picker order; the i-th gets the id
      `firstId + i`, its name from `TrackName` and keeps its path. */
  function MakeTracks(paths: seq<string>, firstId: int): (ts: seq<Track>)
    ensures |ts| == |paths|
    ensures forall i {:trigger ts[i]} :: 0 <= i < |paths| ==>
              ts[i] == Track(firstId + i, TrackName(paths[i]), paths[i])
  {
    if paths == [] then []
    else [Track(firstId, TrackName(paths[0]), paths[0])] + MakeTracks(paths[1..], firstId + 1)
  }

  /** The entries of `s` whose position is not `r`, in their order: the
      position filter the player applies on removal. A position outside `s`
      removes nothing. */
  function RemoveIndex<T>(s: seq<T>, r: int): (t: seq<T>)
    ensures 0 <= r < |s| ==> t == s[..r] + s[r + 1..]
    ensures !(0 <= r < |s|) ==> t == s
  {
    if s == [] then []
    else (if r == 0 then [] else [s[0]]) + RemoveIndex(s[1..], r - 1)
  }

  /** Position by position: entries before `r` keep their position, entries
      after it move one place towards the front. */
  lemma RemoveIndexAt<T>(s: seq<T>, r: int)
    requires 0 <= r < |s|
    ensures |RemoveIndex(s, r)| == |s| - 1
    ensures forall i :: 0 <= i < |s| - 1 ==>
              RemoveIndex(s, r)[i] == if i < r then s[i] else s[i + 1]
  {
  }

  /** Removal is undone by putting the removed entry back where it was. */
  lemma {:induction false} RemoveIndexReinsert<T>(s: seq<T>, r: int)
    requires 0 <= r < |s|
    ensures |RemoveIndex(s, r)| == |s| - 1
    ensures RemoveIndex(s, r)[..r] + [s[r]] + RemoveIndex(s, r)[r..] == s
  {
    var t := RemoveIndex(s, r);
    assert t == s[..r] + s[r + 1..];
    assert t[..r] == s[..r];
    assert t[r..] == s[r + 1..];
    assert s[r..] == [s[r]] + s[r + 1..];
    assert s[..r] + s[r..] == s;
  }
}
