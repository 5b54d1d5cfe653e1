/**
 * The decisions of the e-mail synchronisation (database/get_data_email.py):
 * how `extract_zip` names the files of the archive, how `detect_sync_type`
 * tells a full database from a delta, and which entries the delta path
 * merges. Strings are ASCII-cased; paths use '/' as separator.
 */
module EmailSync {
  import opened Wrappers

  datatype SyncType = Full | Delta

  function AsciiUpper(c: char): char {
    if 'a' <= c <= 'z' then (c as int - 32) as char else c
  }

  function AsciiLower(c: char): char {
    if 'A' <= c <= 'Z' then (c as int + 32) as char else c
  }

  /** `str.upper()` on ASCII letters. */
  function Upper(s: string): (r: string)
    ensures |r| == |s| && forall i :: 0 <= i < |s| ==> r[i] == AsciiUpper(s[i])
  {
    seq(|s|, i requires 0 <= i < |s| => AsciiUpper(s[i]))
  }

  /** `str.lower()` on ASCII letters. */
  function Lower(s: string): (r: string)
    ensures |r| == |s| && forall i :: 0 <= i < |s| ==> r[i] == AsciiLower(s[i])
  {
    seq(|s|, i requires 0 <= i < |s| => AsciiLower(s[i]))
  }

  predicate EndsWith(s: string, suffix: string) {
    |suffix| <= |s| && s[|s| - |suffix|..] == suffix
  }

  predicate OccursAt(s: string, pattern: string, i: int) {
    0 <= i <= |s| - |pattern| && s[i..i + |pattern|] == pattern
  }

  /** Python's `pattern in s` for strings. */
  predicate Contains(s: string, pattern: string) {
    exists i :: 0 <= i <= |s| - |pattern| && OccursAt(s, pattern, i)
  }

  /** `s.rfind(c)`: the last position of `c`, or -1. */
  function LastIndexOf(s: string, c: char): (r: int)
    ensures -1 <= r < |s|
    ensures r >= 0 ==> s[r] == c
    ensures forall i :: r < i < |s| ==> s[i] != c
  {
    if s == [] then -1
    else if s[|s| - 1] == c then |s| - 1
    else LastIndexOf(s[..|s| - 1], c)
  }

  /** The last component of a '/'-separated zip entry name: the longest
      suffix without a '/', so it is the whole name or follows a '/'. */
  function BaseName(name: string): (r: string)
    ensures '/' !in r
    ensures EndsWith(name, r)
    ensures |r| == |name| || name[|name| - |r| - 1] == '/'
  {
    name[LastIndexOf(name, '/') + 1..]
  }

  /** `Path(name).stem`: the last component without its last suffix; a
      leading dot does not start a suffix, nor does a trailing one. */
  function Stem(name: string): string {
    var base := BaseName(name);
    var i := LastIndexOf(base, '.');
    if 0 < i < |base| - 1 then base[..i] else base
  }

  /** The stem of a CSV entry is its last component without the four
      characters of ".csv", unless that component is just the suffix. */
  lemma CsvStem(name: string)
    requires EndsWith(Lower(name), ".csv")
    ensures |BaseName(name)| >= 4
    ensures var base := BaseName(name);
            Stem(name) == if |base| > 4 then base[..|base| - 4] else base
  {
    CsvSuffixDots(name);
    StemOfDotSuffix(name);
  }

  /** A name ending in a dot and three characters that are neither '.' nor
      '/' keeps the four in its last component, and its stem drops them. */
  lemma StemOfDotSuffix(name: string)
    requires |name| >= 4 && name[|name| - 4] == '.'
    requires name[|name| - 3] != '.' && name[|name| - 2] != '.' && name[|name| - 1] != '.'
    requires name[|name| - 3] != '/' && name[|name| - 2] != '/' && name[|name| - 1] != '/'
    ensures |BaseName(name)| >= 4
    ensures var base := BaseName(name);
            Stem(name) == if |base| > 4 then base[..|base| - 4] else base
  {
    var n := |name|;
    var r := LastIndexOf(name, '/');
    assert r < n - 4;
    var base := name[r + 1..];
    assert base == BaseName(name);
    var m := |base|;
    assert base[m - 4] == name[n - 4] && base[m - 3] == name[n - 3];
    assert base[m - 2] == name[n - 2] && base[m - 1] == name[n - 1];
    LastDotAt(base, m - 4);
  }

  /** The last '.' of a string is the one after which there is none. */
  lemma LastDotAt(s: string, k: int)
    requires 0 <= k < |s| && s[k] == '.'
    requires forall j :: k < j < |s| ==> s[j] != '.'
    ensures LastIndexOf(s, '.') == k
  {
  }

  /** A name ending in ".csv", in any case, has its last dot four characters
      from the end, and no separator after it. */
  lemma CsvSuffixDots(name: string)
    requires EndsWith(Lower(name), ".csv")
    ensures |name| >= 4
    ensures name[|name| - 4] == '.'
    ensures name[|name| - 3] != '.' && name[|name| - 2] != '.' && name[|name| - 1] != '.'
    ensures name[|name| - 3] != '/' && name[|name| - 2] != '/' && name[|name| - 1] != '/'
  {
    var n := |name|;
    CsvSuffixChars(Lower(name));
    AsciiLowerDot(name[n - 4]);
    AsciiLowerLetter(name[n - 3]);
    AsciiLowerLetter(name[n - 2]);
    AsciiLowerLetter(name[n - 1]);
  }

  lemma CsvSuffixChars(l: string)
    requires EndsWith(l, ".csv")
    ensures |l| >= 4
    ensures l[|l| - 4] == '.' && l[|l| - 3] == 'c' && l[|l| - 2] == 's' && l[|l| - 1] == 'v'
  {
    var t := l[|l| - 4..];
    assert t[0] == '.' && t[1] == 'c' && t[2] == 's' && t[3] == 'v';
  }

  lemma AsciiLowerDot(c: char)
    ensures AsciiLower(c) == '.' <==> c == '.'
  {
  }

  lemma AsciiLowerLetter(c: char)
    ensures 'a' <= AsciiLower(c) <= 'z' ==> c != '.' && c != '/'
  {
  }

  /** `os.path.join(directory, name)`: an absolute name replaces the
      directory; otherwise a separator is put in between when needed. */
  function JoinPath(directory: string, name: string): (r: string)
    ensures EndsWith(r, name)
    ensures |name| > 0 && name[0] == '/' ==> r == name
    ensures !(|name| > 0 && name[0] == '/') ==> |directory| <= |r| && r[..|directory|] == directory
    ensures directory != "" && !(|name| > 0 && name[0] == '/') ==> |r| > |name| && r[|r| - |name| - 1] == '/'
  {
    if |name| > 0 && name[0] == '/' then name
    else if directory == "" || EndsWith(directory, "/") then directory + name
    else directory + "/" + name
  }

  /** The key an archive entry is filed under: 'db' for a name ending in .db,
      the stem for one ending in .csv (both case-insensitive), none otherwise. */
  function EntryKey(name: string): Option<string> {
    if EndsWith(Lower(name), ".db") then Some("db")
    else if EndsWith(Lower(name), ".csv") then Some(Stem(name))
    else None
  }

  /** The dictionary after filing the names in order: a later entry with the
      same key replaces an earlier one. */
  function Classified(names: seq<string>, directory: string): map<string, string> {
    if names == [] then map[]
    else
      var before := Classified(names[..|names| - 1], directory);
      var name := names[|names| - 1];
      match EntryKey(name)
      case None => before
      case Some(key) => before[key := JoinPath(directory, name)]
  }

  /** The loop of `extract_zip` over `namelist()`. */
  method ClassifyEntries(names: seq<string>, directory: string) returns (files: map<string, string>)
    ensures files == Classified(names, directory)
  {
    files := map[];
    for i := 0 to |names|
      invariant files == Classified(names[..i], directory)
    {
      ClassifiedPrefixStep(names, directory, i);
      var name := names[i];
      var fullPath := JoinPath(directory, name);
      if EndsWith(Lower(name), ".db") {
        assert EntryKey(name) == Some("db");
        files := files["db" := fullPath];
      } else if EndsWith(Lower(name), ".csv") {
        var tableName := Stem(name);
        assert EntryKey(name) == Some(tableName);
        files := files[tableName := fullPath];
      } else {
        assert EntryKey(name) == None;
      }
    }
    assert names[..|names|] == names;
  }

  /** Filing entry `i` after the first `i` entries. */
  lemma ClassifiedPrefixStep(names: seq<string>, directory: string, i: int)
    requires 0 <= i < |names|
    ensures Classified(names[..i + 1], directory)
         == match EntryKey(names[i])
            case None => Classified(names[..i], directory)
            case Some(key) => Classified(names[..i], directory)[key := JoinPath(directory, names[i])]
  {
    assert names[..i + 1][..i] == names[..i];
  }

  /** Entry `i` of `names` is filed under `key`. */
  predicate FiledUnder(names: seq<string>, i: int, key: string) {
    0 <= i < |names| && EntryKey(names[i]) == Some(key)
  }

  /** Entry `i` is the last one filed under `key`. */
  predicate LastFiledUnder(names: seq<string>, i: int, key: string) {
    FiledUnder(names, i, key) && forall j :: i < j < |names| ==> EntryKey(names[j]) != Some(key)
  }

  /** The key of each entry, in archive order. */
  function EntryKeys(names: seq<string>): (r: seq<Option<string>>)
    ensures |r| == |names| && forall i :: 0 <= i < |names| ==> r[i] == EntryKey(names[i])
  {
    seq(|names|, i requires 0 <= i < |names| => EntryKey(names[i]))
  }

  /** A key is present exactly when some entry is filed under it. */
  lemma {:induction false} ClassifiedKeys(names: seq<string>, directory: string, key: string)
    ensures key in Classified(names, directory) <==> Some(key) in EntryKeys(names)
  {
    if names != [] {
      var init := names[..|names| - 1];
      ClassifiedKeys(init, directory, key);
      ClassifiedKeyStep(names, directory, key);
      EntryKeysSnoc(names, init);
    }
  }

  /** Filing one more entry adds its key and keeps the others. */
  lemma ClassifiedKeyStep(names: seq<string>, directory: string, key: string)
    requires names != []
    ensures key in Classified(names, directory)
        <==> key in Classified(names[..|names| - 1], directory) || EntryKey(names[|names| - 1]) == Some(key)
  {
  }

  lemma EntryKeysSnoc(names: seq<string>, init: seq<string>)
    requires names != [] && init == names[..|names| - 1]
    ensures EntryKeys(names) == EntryKeys(init) + [EntryKey(names[|names| - 1])]
  {
  }

  /** Each key holds the path of the last entry filed under it. */
  lemma {:induction false} ClassifiedLastWins(names: seq<string>, directory: string, key: string, i: int)
    requires LastFiledUnder(names, i, key)
    ensures key in Classified(names, directory)
    ensures Classified(names, directory)[key] == JoinPath(directory, names[i])
  {
    var n := |names| - 1;
    if i == n {
      ClassifiedStep(names, directory, key);
    } else {
      var init := names[..n];
      LastFiledUnderInit(names, i, key);
      ClassifiedLastWins(init, directory, key, i);
      ClassifiedKeepsOthers(names, directory, key, JoinPath(directory, names[i]));
    }
  }

  /** Entry `i`, not the final one, is also last among the earlier entries. */
  lemma LastFiledUnderInit(names: seq<string>, i: int, key: string)
    requires LastFiledUnder(names, i, key) && i < |names| - 1
    ensures LastFiledUnder(names[..|names| - 1], i, key)
    ensures EntryKey(names[|names| - 1]) != Some(key)
  {
    var init := names[..|names| - 1];
    assert init[i] == names[i];
    forall j | i < j < |init| ensures EntryKey(init[j]) != Some(key) {
      assert init[j] == names[j];
    }
  }

  /** A final entry filed elsewhere leaves the value under `key` alone. */
  lemma ClassifiedKeepsOthers(names: seq<string>, directory: string, key: string, p: string)
    requires names != [] && EntryKey(names[|names| - 1]) != Some(key)
    requires key in Classified(names[..|names| - 1], directory)
    requires Classified(names[..|names| - 1], directory)[key] == p
    ensures key in Classified(names, directory) && Classified(names, directory)[key] == p
  {
    ClassifiedStep(names, directory, key);
  }

  /** Filing the last entry: its key now holds its path, any other key
      keeps the value it had. */
  lemma ClassifiedStep(names: seq<string>, directory: string, key: string)
    requires names != []
    ensures var before := Classified(names[..|names| - 1], directory);
            var last := names[|names| - 1];
            && (EntryKey(last) == Some(key) ==> key in Classified(names, directory)
                                                && Classified(names, directory)[key] == JoinPath(directory, last))
            && (EntryKey(last) != Some(key) && key in before ==> key in Classified(names, directory)
                                                                 && Classified(names, directory)[key] == before[key])
  {
  }

  /** `detect_sync_type`: the subject's keywords first (full before delta),
      then the contents: a 'db' entry means full, any other entry delta, and
      an empty archive full. */
  function DetectSyncType(subject: Option<string>, contents: map<string, string>): SyncType {
    var s := Upper(subject.GetOr(""));
    if Contains(s, "FULL DATABASE") || Contains(s, "INITIAL") then Full
    else if Contains(s, "DELTA") || Contains(s, "CHANGES") then Delta
    else if "db" in contents then Full
    else if exists key :: key in contents && (EndsWith(key, ".csv") || key != "db") then Delta
    else Full
  }

  /** No keyword of either kind in the upper-cased subject. */
  predicate NoSubjectKeyword(subject: Option<string>) {
    var s := Upper(subject.GetOr(""));
    !Contains(s, "FULL DATABASE") && !Contains(s, "INITIAL") && !Contains(s, "DELTA") && !Contains(s, "CHANGES")
  }

  /** The entries the delta path merges: every entry but 'db'. */
  function CsvFiles(contents: map<string, string>): (r: map<string, string>)
    ensures r.Keys == contents.Keys - {"db"}
    ensures forall k :: k in r ==> r[k] == contents[k]
  {
    map k | k in contents && k != "db" :: contents[k]
  }

  /** A full-database keyword decides, whatever else the subject or the
      archive holds. */
  lemma FullKeywordWins(subject: string, contents: map<string, string>)
    requires Contains(Upper(subject), "FULL DATABASE") || Contains(Upper(subject), "INITIAL")
    ensures DetectSyncType(Some(subject), contents) == Full
  {
  }

  /** Without a full-database keyword, a delta keyword decides, whatever the
      archive holds. */
  lemma DeltaKeywordWins(subject: string, contents: map<string, string>)
    requires !Contains(Upper(subject), "FULL DATABASE") && !Contains(Upper(subject), "INITIAL")
    requires Contains(Upper(subject), "DELTA") || Contains(Upper(subject), "CHANGES")
    ensures DetectSyncType(Some(subject), contents) == Delta
  {
  }

  /** Without a subject keyword the decision rests on the entries: delta
      exactly when there is no 'db' entry and the delta set is not empty. */
  lemma ContentsDecide(subject: Option<string>, contents: map<string, string>)
    requires NoSubjectKeyword(subject)
    ensures DetectSyncType(subject, contents) == Delta <==> "db" !in contents && CsvFiles(contents) != map[]
  {
    if "db" !in contents && CsvFiles(contents) != map[] {
      var k :| k in CsvFiles(contents);
      assert k in contents && (EndsWith(k, ".csv") || k != "db");
    }
    if DetectSyncType(subject, contents) == Delta {
      var k :| k in contents && (EndsWith(k, ".csv") || k != "db");
      assert k in CsvFiles(contents);
    }
  }

  /** Case does not matter for the keywords: a lower-case subject is read as
      its upper-case form. */
  lemma LowerCaseKeywordExample(contents: map<string, string>)
    ensures DetectSyncType(Some("initial"), contents) == Full
  {
    KeywordsUpperCased();
  }

  /** A delta keyword in the subject outranks a 'db' entry. */
  lemma DeltaKeywordExample()
    ensures DetectSyncType(Some("delta"), map["db" := "tmp/local.db"]) == Delta
  {
    KeywordsUpperCased();
  }

  /** The two lower-case subjects of the examples, upper-cased, contain
      their keywords. */
  lemma KeywordsUpperCased()
    ensures Upper("initial") == "INITIAL" && Contains(Upper("initial"), "INITIAL")
    ensures Upper("delta") == "DELTA" && Contains(Upper("delta"), "DELTA")
  {
    var t := Upper("initial");
    assert t == "INITIAL";
    assert OccursAt(t, "INITIAL", 0);
    var u := Upper("delta");
    assert u == "DELTA";
    assert OccursAt(u, "DELTA", 0);
  }

  /** A CSV entry, whatever the case of its suffix, is filed under its stem
      and never taken for the database. */
  lemma CsvEntryKey(name: string)
    requires EndsWith(Lower(name), ".csv")
    ensures EntryKey(name) == Some(Stem(name))
  {
    CsvSuffixChars(Lower(name));
    EndsWithLast(Lower(name), ".db");
  }

  /** A suffix ends the way the string does. */
  lemma EndsWithLast(s: string, suffix: string)
    ensures EndsWith(s, suffix) && suffix != [] ==> s[|s| - 1] == suffix[|suffix| - 1]
  {
    if EndsWith(s, suffix) && suffix != [] {
      assert s[|s| - |suffix|..][|suffix| - 1] == suffix[|suffix| - 1];
    }
  }

  /** A CSV whose base name is 'db' followed by the '.csv' suffix in any
      letter case is filed under 'db', the database's own key. */
  lemma DbCsvEntryKey(name: string)
    requires EndsWith(Lower(name), ".csv")
    requires |BaseName(name)| == 6 && BaseName(name)[..2] == "db"
    ensures EntryKey(name) == Some("db")
  {
    CsvEntryKey(name);
    CsvStem(name);
  }

  /** The stem keeps its letter case: 'DB.csv' is filed under 'DB', not
      under the database's key. */
  lemma UpperDbCsvKeepsCase()
    ensures EntryKey("DB.csv") == Some("DB")
  {
    var name := "DB.csv";
    assert '/' !in name by {
      assert forall i :: 0 <= i < |name| ==> name[i] != '/';
    }
    assert EndsWith(Lower(name), ".csv") by {
      assert Lower(name)[2..] == ".csv";
    }
    PlainCsvEntryKey(name);
    assert name[..2] == "DB";
  }

  /** A '.csv' name with no directory part is filed under the name without
      its last four characters. */
  lemma PlainCsvEntryKey(name: string)
    requires '/' !in name && |name| > 4 && EndsWith(Lower(name), ".csv")
    ensures EntryKey(name) == Some(name[..|name| - 4])
  {
    assert LastIndexOf(name, '/') == -1;
    assert BaseName(name) == name;
    CsvEntryKey(name);
    CsvStem(name);
  }

  /** Without a subject keyword, an archive holding only a CSV table is a
      delta. */
  lemma CsvArchiveIsDelta()
    ensures DetectSyncType(None, map["items" := "tmp/items.CSV"]) == Delta
  {
    assert Upper("") == "";
    assert "items" in map["items" := "tmp/items.CSV"];
  }

  /** ... and so taken for the database. */
  lemma CsvNamedDbIsFull()
    ensures DetectSyncType(None, map["db" := "tmp/db.csv"]) == Full
  {
    assert Upper("") == "";
  }
}
