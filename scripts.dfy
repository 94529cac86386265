/**
 * The script repository: a directory listing of migration files, the
 * top-level `*.sql` filter, and the blank-content test applied to the file
 * that is read.
 */
module Scripts {

  /** One top-level file, as `DirectoryInfo.GetFiles` reports it and as
      `File.ReadAllText` reads it. */
  datatype FileEntry = FileEntry(name: string, fullName: string, content: string)

  /** The directories that exist, each mapped to its top-level files in the
      order the directory listing returns them. */
  type FileSystem = map<string, seq<FileEntry>>

  /** The search pattern `*.sql`: any name, possibly empty, followed by the
      extension `.sql`, compared case-sensitively. */
  predicate IsSqlFileName(name: string)
  {
    |name| >= 4 && name[|name| - 4..] == ".sql"
  }

  /** `GetFiles("*.sql", SearchOption.TopDirectoryOnly)`: the matching files
      of the listing, in listing order. */
  function SqlFiles(entries: seq<FileEntry>): (r: seq<FileEntry>)
    ensures |r| <= |entries|
    ensures forall f :: f in r <==> f in entries && IsSqlFileName(f.name)
  {
    if entries == [] then []
    else if IsSqlFileName(entries[0].name) then [entries[0]] + SqlFiles(entries[1..])
    else SqlFiles(entries[1..])
  }

  /** Filtering a listing made of two parts filters each part in turn: the
      `*.sql` listing keeps the directory's order, repeats included. */
  lemma {:induction false} SqlFilesAppend(a: seq<FileEntry>, b: seq<FileEntry>)
    ensures SqlFiles(a + b) == SqlFiles(a) + SqlFiles(b)
  {
    if a == [] {
      assert a + b == b;
    } else {
      assert (a + b)[0] == a[0];
      assert (a + b)[1..] == a[1..] + b;
      SqlFilesAppend(a[1..], b);
      if IsSqlFileName(a[0].name) {
        assert [a[0]] + (SqlFiles(a[1..]) + SqlFiles(b)) == [a[0]] + SqlFiles(a[1..]) + SqlFiles(b);
      }
    }
  }

  /** A single file is kept exactly when its name matches `*.sql`. */
  lemma SqlFilesSingleton(f: FileEntry)
    ensures SqlFiles([f]) == if IsSqlFileName(f.name) then [f] else []
  {
    assert [f][1..] == [];
  }

  /** `char.IsWhiteSpace`: the Unicode space, line and paragraph separators,
      the control characters U+0009 to U+000D, and U+0085. */
  predicate IsWhiteSpace(c: char)
  {
    var v := c as int;
    || 0x0009 <= v <= 0x000D || v == 0x0020 || v == 0x0085 || v == 0x00A0
    || v == 0x1680 || 0x2000 <= v <= 0x200A || v == 0x2028 || v == 0x2029
    || v == 0x202F || v == 0x205F || v == 0x3000
  }

  /** `string.IsNullOrWhiteSpace` on a string that was read, so never null:
      empty, or white space only. */
  predicate IsNullOrWhiteSpace(s: string)
  {
    forall k :: 0 <= k < |s| ==> IsWhiteSpace(s[k])
  }

  /** `TrimStart()`: drops the leading white space. */
  function TrimStart(s: string): (r: string)
    ensures |r| <= |s| && r == s[|s| - |r|..]
    ensures forall k :: 0 <= k < |s| - |r| ==> IsWhiteSpace(s[k])
    ensures r != [] ==> !IsWhiteSpace(r[0])
  {
    if s != [] && IsWhiteSpace(s[0]) then TrimStart(s[1..]) else s
  }

  /** `TrimEnd()`: drops the trailing white space. */
  function TrimEnd(s: string): (r: string)
    ensures |r| <= |s| && r == s[..|r|]
    ensures forall k :: |r| <= k < |s| ==> IsWhiteSpace(s[k])
    ensures r != [] ==> !IsWhiteSpace(r[|r| - 1])
  {
    if s != [] && IsWhiteSpace(s[|s| - 1]) then TrimEnd(s[..|s| - 1]) else s
  }

  /** `Trim()`: drops the white space at both ends. */
  function Trim(s: string): string
  {
    TrimEnd(TrimStart(s))
  }

  lemma {:induction false} TrimStartEmptyIffBlank(s: string)
    ensures TrimStart(s) == [] <==> IsNullOrWhiteSpace(s)
  {
    if s != [] && IsWhiteSpace(s[0]) {
      TrimStartEmptyIffBlank(s[1..]);
      assert forall k :: 1 <= k < |s| ==> s[k] == s[1..][k - 1];
    }
  }

  /** The blank test is the same as "the trimmed content is empty". */
  lemma BlankIffTrimmedEmpty(s: string)
    ensures IsNullOrWhiteSpace(s) <==> Trim(s) == []
  {
    TrimStartEmptyIffBlank(s);
    var t := TrimStart(s);
    if t != [] {
      var r := TrimEnd(t);
      assert r != [] by {
        if r == [] {
          TrimEndKeepsFirst(t);
        }
      }
    }
  }

  /** TrimEnd keeps a first character that is not white space. */
  lemma {:induction false} TrimEndKeepsFirst(s: string)
    requires s != [] && !IsWhiteSpace(s[0])
    ensures TrimEnd(s) != []
  {
    if |s| > 1 && IsWhiteSpace(s[|s| - 1]) {
      TrimEndKeepsFirst(s[..|s| - 1]);
    }
  }
}
