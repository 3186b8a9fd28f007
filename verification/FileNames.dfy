/**
 Report file names: application-hwid-signal-pid with a suffix.  The parser walks from the end, since
 an application name may itself contain dashes.
 */
module FileNames {
  import opened Basics

  datatype CrashInfo = CrashInfo(application: string, hwid: string, signum: string, pid: string)

  /* ---- the string operations the parser is made of ---- */

  function LastIndexOf(s: string, c: char): (i: int)
    ensures -1 <= i < |s|
    ensures i >= 0 ==> s[i] == c
    ensures forall j :: i < j < |s| ==> s[j] != c
  {
    if s == [] then -1
    else if s[|s| - 1] == c then |s| - 1
    else LastIndexOf(s[..|s| - 1], c)
  }

  // QString::remove(): a negative position counts from the end, a position outside the string
  // removes nothing, and a length that is too long is cut.
  function Remove(s: string, pos: int, len: nat): string {
    var at := if pos < 0 then pos + |s| else pos;
    if at < 0 || at >= |s| then s
    else if len >= |s| - at then s[..at]
    else s[..at] + s[at + len..]
  }

  // QFileInfo::baseName(): the last path component up to its first dot.
  function BaseName(path: string): string {
    var name := path[LastIndexOf(path, '/') + 1..];
    name[..IndexOf(name, '.')]
  }

  /* ---- the parser ---- */

  // What is after the last dash, and what is left before it.  Without a dash the whole string is
  // taken, and one character is lost from what is left.
  function SplitLast(s: string): (r: (string, string)) {
    var i := LastIndexOf(s, '-');
    if i >= 0 then (s[..i], s[i + 1..])
    else (if s == "" then "" else s[..|s| - 1], s)
  }

  function ParseBase(base: string): CrashInfo {
    var (rest, pid) := SplitLast(base);
    var (rest', signum) := SplitLast(rest);
    var (application, hwid) := SplitLast(rest');
    CrashInfo(application, hwid, signum, pid)
  }

  function ParseCrashInfo(path: string): CrashInfo {
    ParseBase(BaseName(path))
  }

  lemma RemoveTail(s: string, i: int)
    requires -1 <= i < |s|
    ensures Remove(s, i, |s| - i) == if i >= 0 then s[..i] else if s == "" then "" else s[..|s| - 1]
  {
  }

  lemma RemoveSplits(s: string)
    ensures var i := LastIndexOf(s, '-');
      SplitLast(s) == (Remove(s, i, |s[i + 1..]| + 1), s[i + 1..])
  {
    hide LastIndexOf;
    var i := LastIndexOf(s, '-');
    RemoveTail(s, i);
    if i == -1 { assert s[i + 1..] == s; }
  }

  method ParseCrashInfoFromFilename(filePath: string) returns (info: CrashInfo)
    ensures info == ParseCrashInfo(filePath)
  {
    hide BaseName, LastIndexOf, Remove, SplitLast;
    var baseName := BaseName(filePath);
    RemoveSplits(baseName);
    var searchIndex := LastIndexOf(baseName, '-');
    var pid := baseName[searchIndex + 1..];
    baseName := Remove(baseName, searchIndex, |pid| + 1);
    RemoveSplits(baseName);
    searchIndex := LastIndexOf(baseName, '-');
    var signum := baseName[searchIndex + 1..];
    baseName := Remove(baseName, searchIndex, |signum| + 1);
    RemoveSplits(baseName);
    searchIndex := LastIndexOf(baseName, '-');
    var hwid := baseName[searchIndex + 1..];
    baseName := Remove(baseName, searchIndex, |hwid| + 1);
    info := CrashInfo(baseName, hwid, signum, pid);
  }

  /* ---- the naming scheme ---- */

  function Join(info: CrashInfo): string {
    info.application + "-" + info.hwid + "-" + info.signum + "-" + info.pid
  }

  lemma SplitJoined(rest: string, last: string)
    requires '-' !in last
    ensures SplitLast(rest + "-" + last) == (rest, last)
  {
    hide LastIndexOf;
    var s := rest + "-" + last;
    assert s[|rest|] == '-';
    assert forall j :: |rest| < j < |s| ==> s[j] == last[j - |rest| - 1];
    assert LastIndexOf(s, '-') == |rest|;
    assert s[..|rest|] == rest && s[|rest| + 1..] == last;
  }

  lemma ParseBaseInvertsJoin(info: CrashInfo)
    requires '-' !in info.hwid && '-' !in info.signum && '-' !in info.pid
    ensures ParseBase(Join(info)) == info
  {
    var three := info.application + "-" + info.hwid + "-" + info.signum;
    assert Join(info) == three + "-" + info.pid;
    SplitJoined(three, info.pid);
    SplitJoined(info.application + "-" + info.hwid, info.signum);
    SplitJoined(info.application, info.hwid);
  }

  // The directory is cut off at its last slash.
  lemma FileNameOf(dir: string, file: string)
    requires dir == "" || dir[|dir| - 1] == '/'
    requires '/' !in file
    ensures LastIndexOf(dir + file, '/') == |dir| - 1
    ensures (dir + file)[LastIndexOf(dir + file, '/') + 1..] == file
  {
    hide LastIndexOf;
    var path := dir + file;
    assert forall j :: |dir| <= j < |path| ==> path[j] == file[j - |dir|];
    assert dir != "" ==> path[|dir| - 1] == '/';
  }

  lemma BaseNameOf(dir: string, name: string, suffix: string)
    requires dir == "" || dir[|dir| - 1] == '/'
    requires '/' !in name && '.' !in name && '/' !in suffix
    ensures BaseName(dir + name + "." + suffix) == name
  {
    hide LastIndexOf, IndexOf;
    var file := name + "." + suffix;
    assert dir + name + "." + suffix == dir + file;
    FileNameOf(dir, file);
    assert forall j :: 0 <= j < |name| ==> file[j] == name[j];
    assert file[|name|] == '.';
    assert IndexOf(file, '.') == |name|;
    assert file[..|name|] == name;
  }

  // A report in a directory, named by the scheme.
  datatype Report = Report(dir: string, info: CrashInfo, suffix: string)

  function PathOf(r: Report): string {
    r.dir + Join(r.info) + "." + r.suffix
  }

  predicate InScheme(r: Report) {
    && (r.dir == "" || r.dir[|r.dir| - 1] == '/')
    && '-' !in r.info.hwid && '-' !in r.info.signum && '-' !in r.info.pid
    && '.' !in Join(r.info) && '/' !in Join(r.info) && '/' !in r.suffix
  }

  // A report named by the scheme gives back its four parts; the application may contain dashes.
  lemma ParserInvertsScheme(r: Report)
    requires InScheme(r)
    ensures ParseCrashInfo(PathOf(r)) == r.info
  {
    BaseNameOf(r.dir, Join(r.info), r.suffix);
    ParseBaseInvertsJoin(r.info);
  }

  /* ---- and back ---- */

  function Dashes(s: string): nat {
    if s == [] then 0 else Dashes(s[..|s| - 1]) + (if s[|s| - 1] == '-' then 1 else 0)
  }

  lemma {:induction false} DashesAppend(s: string, t: string)
    ensures Dashes(s + t) == Dashes(s) + Dashes(t)
    decreases |t|
  {
    if t == [] {
      assert s + t == s;
    } else {
      DashesAppend(s, t[..|t| - 1]);
      assert (s + t)[..|s + t| - 1] == s + t[..|t| - 1];
    }
  }

  lemma {:induction false} NoDashes(s: string)
    ensures Dashes(s) == 0 <==> '-' !in s
  {
    if s == [] {
    } else {
      NoDashes(s[..|s| - 1]);
      assert s == s[..|s| - 1] + [s[|s| - 1]];
    }
  }

  lemma OneDash()
    ensures Dashes("-") == 1
  {
    assert "-"[..0] == "";
  }

  lemma DashesJoin(s: string, t: string)
    ensures Dashes(s + "-" + t) == Dashes(s) + 1 + Dashes(t)
  {
    hide Dashes;
    DashesAppend(s + "-", t);
    DashesAppend(s, "-");
    OneDash();
  }

  lemma SplitHasDash(s: string)
    requires Dashes(s) > 0
    ensures var (rest, last) := SplitLast(s);
      s == rest + "-" + last && Dashes(rest) == Dashes(s) - 1
  {
    hide Dashes;
    NoDashes(s);
    var i := LastIndexOf(s, '-');
    assert s == s[..i] + "-" + s[i + 1..];
    assert '-' !in s[i + 1..];
    NoDashes(s[i + 1..]);
    DashesJoin(s[..i], s[i + 1..]);
  }

  lemma JoinHasThreeDashes(info: CrashInfo)
    ensures Dashes(Join(info)) >= 3
  {
    hide Dashes;
    DashesJoin(info.application, info.hwid);
    DashesJoin(info.application + "-" + info.hwid, info.signum);
    DashesJoin(info.application + "-" + info.hwid + "-" + info.signum, info.pid);
  }

  // Joining the parsed parts gives the base name back exactly if it has at least three dashes.
  lemma JoinInvertsParserIff(base: string)
    ensures Join(ParseBase(base)) == base <==> Dashes(base) >= 3
  {
    if Dashes(base) >= 3 {
      SplitHasDash(base);
      SplitHasDash(SplitLast(base).0);
      SplitHasDash(SplitLast(SplitLast(base).0).0);
    } else {
      JoinHasThreeDashes(ParseBase(base));
    }
  }
}
