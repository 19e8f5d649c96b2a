/** Display names for running applications: the cleanup applied to a
    process name, and the guess made from a window title when no process
    id is known. Window and process enumeration are not modelled. */
module OpenApps {
  import opened Util

  /** Drops `n` characters from the end (`s[:-n]`). */
  function DropLast(s: string, n: nat): (r: string)
    requires n <= |s|
    ensures r + s[|s| - n..] == s
  {
    s[..|s| - n]
  }

  /** One trailing ".exe" or ".app" removed, then one trailing "-bin". */
  function StripSuffixes(s: string): (r: string)
    ensures EndsWith(s, ".exe") || EndsWith(s, ".app") ==> |r| <= |s| - 4
    ensures !EndsWith(s, ".exe") && !EndsWith(s, ".app") && !EndsWith(s, "-bin") ==> r == s
    ensures !EndsWith(s, ".exe") && !EndsWith(s, ".app") && EndsWith(s, "-bin") ==> r == s[..|s| - 4]
    ensures (EndsWith(s, ".exe") || EndsWith(s, ".app")) && !EndsWith(s[..|s| - 4], "-bin") ==> r == s[..|s| - 4]
    ensures (EndsWith(s, ".exe") || EndsWith(s, ".app")) && EndsWith(s[..|s| - 4], "-bin") ==> r == s[..|s| - 8]
  {
    var t := if EndsWith(s, ".exe") || EndsWith(s, ".app") then DropLast(s, 4) else s;
    if EndsWith(t, "-bin") then DropLast(t, 4) else t
  }

  /** Position `i` of `s` holds a letter that starts a run of letters. */
  predicate StartsWord(s: string, i: int)
    requires 0 <= i < |s|
  {
    IsLetter(s[i]) && (i == 0 || !IsLetter(s[i - 1]))
  }

  /** Position `i` of `s` holds a letter that follows a letter. */
  predicate InsideWord(s: string, i: int)
    requires 0 <= i < |s|
  {
    0 < i && IsLetter(s[i]) && IsLetter(s[i - 1])
  }

  /** Python's str.title() on ASCII text: a letter is upper-cased when it
      starts a run of letters and lower-cased otherwise. */
  function Title(s: string): (r: string)
    ensures |r| == |s|
    ensures forall i :: 0 <= i < |s| ==> (IsLetter(r[i]) <==> IsLetter(s[i]))
    ensures forall i :: 0 <= i < |s| ==> LowerChar(r[i]) == LowerChar(s[i])
    ensures forall i :: 0 <= i < |s| && StartsWord(s, i) ==> IsUpper(r[i])
    ensures forall i :: 0 <= i < |s| && InsideWord(s, i) ==> IsLower(r[i])
    ensures forall i :: 0 <= i < |s| && !IsLetter(s[i]) ==> r[i] == s[i]
  {
    if s == [] then []
    else
      var p := s[..|s| - 1];
      var t := Title(p);
      var r := t + [TitleChar(s[|s| - 1], |s| > 1 && IsLetter(s[|s| - 2]))];
      assert forall i :: 0 <= i < |s| - 1 ==> r[i] == t[i] && s[i] == p[i];
      assert forall i :: 0 <= i < |s| - 1 ==> (StartsWord(s, i) <==> StartsWord(p, i)) && (InsideWord(s, i) <==> InsideWord(p, i));
      r
  }

  /** One character of str.title(): a letter is lower-cased after a
      letter and upper-cased otherwise; any other character is kept. */
  function TitleChar(c: char, afterLetter: bool): (d: char)
    ensures IsLetter(d) <==> IsLetter(c)
    ensures LowerChar(d) == LowerChar(c)
    ensures IsLetter(c) && !afterLetter ==> IsUpper(d)
    ensures IsLetter(c) && afterLetter ==> IsLower(d)
    ensures !IsLetter(c) ==> d == c
  {
    if afterLetter then LowerChar(c) else UpperChar(c)
  }

  /** `s.replace('-', ' ')` */
  function HyphensToSpaces(s: string): (r: string)
    ensures |r| == |s| && '-' !in r
    ensures forall i :: 0 <= i < |s| ==> r[i] == if s[i] == '-' then ' ' else s[i]
  {
    if s == [] then [] else [if s[0] == '-' then ' ' else s[0]] + HyphensToSpaces(s[1..])
  }

  /** The process names with a fixed display name. */
  function KnownName(s: string): (r: Option<string>)
  {
    if s == "google-chrome" then Some("Google Chrome")
    else if s == "code" then Some("Visual Studio Code")
    else if s == "gnome-terminal-server" || s == "gnome-terminal" then Some("Terminal")
    else if s == "org.gnome.nautilus" then Some("Files (Nautilus)")
    else if s == "telegramdesktop" then Some("Telegram")
    else if s == "thunderbird" then Some("Mozilla Thunderbird")
    else None
  }

  /** `clean_app_name`: lower-case and strip, drop the suffixes, then the
      fixed name of a known process or the title-cased name with hyphens
      as spaces. */
  function CleanAppName(raw: string): string
  {
    var base := StripSuffixes(Strip(Lower(raw)));
    match KnownName(base)
    case Some(name) => name
    case None => Title(HyphensToSpaces(base))
  }

  /** The cleaned name of an unknown process keeps the length of the
      cleaned process name, has no hyphen, and each of its words starts
      with an upper-case letter. */
  lemma DefaultNameShape(raw: string)
    requires KnownName(StripSuffixes(Strip(Lower(raw)))).None?
    ensures var base := StripSuffixes(Strip(Lower(raw)));
      var r := CleanAppName(raw);
      |r| == |base| && '-' !in r &&
      forall i :: 0 <= i < |r| && StartsWord(r, i) ==> IsUpper(r[i])
  {
    var base := StripSuffixes(Strip(Lower(raw)));
    var h := HyphensToSpaces(base);
    assert CleanAppName(raw) == Title(h);
    TitleShape(h);
  }

  /** Title-casing text without hyphens gives text without hyphens whose
      words start upper-case. */
  lemma TitleShape(h: string)
    requires '-' !in h
    ensures var r := Title(h);
      '-' !in r && forall i :: 0 <= i < |r| && StartsWord(r, i) ==> IsUpper(r[i])
  {
    var r := Title(h);
    forall i | 0 <= i < |r| ensures r[i] != '-' && (StartsWord(r, i) ==> StartsWord(h, i)) {
      if !IsLetter(h[i]) {
        assert r[i] == h[i];
      }
      if i > 0 {
        assert IsLetter(r[i - 1]) <==> IsLetter(h[i - 1]);
      }
    }
  }

  /** Executable suffixes do not change the name: the Windows
      executable of a program cleans to the same name as the program. */
  lemma ExecutableSuffixIgnored(name: string)
    requires name != [] && !IsSpace(name[0]) && !IsSpace(name[|name| - 1])
    requires forall i :: 0 <= i < |name| ==> !IsUpper(name[i])
    requires !EndsWith(name, ".exe") && !EndsWith(name, ".app")
    ensures CleanAppName(name + ".exe") == CleanAppName(name)
  {
    BaseWithExe(name);
    SameBaseSameName(name + ".exe", name);
  }

  lemma BaseWithExe(name: string)
    requires name != [] && !IsSpace(name[0]) && !IsSpace(name[|name| - 1])
    requires forall i :: 0 <= i < |name| ==> !IsUpper(name[i])
    requires !EndsWith(name, ".exe") && !EndsWith(name, ".app")
    ensures StripSuffixes(Strip(Lower(name + ".exe"))) == StripSuffixes(Strip(Lower(name)))
  {
    ExeForm(name);
    CleanForm(name);
    ExeDropped(name);
  }

  /** The executable name of such a program is already lower-case and
      stripped. */
  lemma ExeForm(name: string)
    requires name != [] && !IsSpace(name[0])
    requires forall i :: 0 <= i < |name| ==> !IsUpper(name[i])
    ensures Lower(name + ".exe") == name + ".exe" && Strip(name + ".exe") == name + ".exe"
  {
    var e := name + ".exe";
    NoUpperAppend(name, ".exe");
    LowerNoUpper(e);
    assert e[0] == name[0] && e[|e| - 1] == 'e';
    StripKeeps(e);
  }

  /** Appending text without upper-case letters to such text gives text
      without upper-case letters. */
  lemma NoUpperAppend(a: string, b: string)
    requires forall i :: 0 <= i < |a| ==> !IsUpper(a[i])
    requires forall i :: 0 <= i < |b| ==> !IsUpper(b[i])
    ensures forall i :: 0 <= i < |a + b| ==> !IsUpper((a + b)[i])
  {
    forall i | 0 <= i < |a + b| ensures !IsUpper((a + b)[i]) {
      if i >= |a| {
        assert (a + b)[i] == b[i - |a|];
      }
    }
  }

  /** A lower-case name without surrounding spaces is its own lower-cased,
      stripped form. */
  lemma CleanForm(s: string)
    requires s != [] && !IsSpace(s[0]) && !IsSpace(s[|s| - 1])
    requires forall i :: 0 <= i < |s| ==> !IsUpper(s[i])
    ensures Strip(Lower(s)) == s
  {
    LowerNoUpper(s);
    StripKeeps(s);
  }

  lemma ExeDropped(name: string)
    requires !EndsWith(name, ".exe") && !EndsWith(name, ".app")
    ensures StripSuffixes(name + ".exe") == StripSuffixes(name)
  {
    var s := name + ".exe";
    assert s[|s| - 4..] == ".exe";
    assert DropLast(s, 4) == name;
  }

  lemma SameBaseSameName(a: string, b: string)
    requires StripSuffixes(Strip(Lower(a))) == StripSuffixes(Strip(Lower(b)))
    ensures CleanAppName(a) == CleanAppName(b)
  {
  }

  lemma LowerAppend(a: string, b: string)
    ensures Lower(a + b) == Lower(a) + Lower(b)
  {
    var l := Lower(a + b);
    assert forall i :: 0 <= i < |a| ==> (a + b)[i] == a[i];
    assert forall i :: |a| <= i < |a + b| ==> (a + b)[i] == b[i - |a|];
  }

  /** A string that neither starts nor ends with a space strips to
      itself. */
  lemma StripKeeps(s: string)
    requires s != [] && !IsSpace(s[0]) && !IsSpace(s[|s| - 1])
    ensures Strip(s) == s
  {
  }

  /** Cleaning a lower-case process name without surrounding spaces or
      suffixes looks it up as it is. */
  lemma CleanPlain(s: string)
    requires Lower(s) == s && s != [] && !IsSpace(s[0]) && !IsSpace(s[|s| - 1])
    requires !EndsWith(s, ".exe") && !EndsWith(s, ".app") && !EndsWith(s, "-bin")
    ensures KnownName(s).Some? ==> CleanAppName(s) == KnownName(s).value
  {
    StripKeeps(s);
  }

  /** The code editor's process name. */
  lemma EditorName()
    ensures CleanAppName("code") == "Visual Studio Code"
  {
    KnownPlainName("code");
  }

  /** The browser's process name, whose hyphen is kept for the lookup. */
  lemma BrowserName()
    ensures CleanAppName("google-chrome") == "Google Chrome"
  {
    KnownPlainName("google-chrome");
  }

  /** A known process name that is already lower-case, without spaces
      or suffixes, cleans to its fixed name. */
  lemma KnownPlainName(s: string)
    requires forall i :: 0 <= i < |s| ==> 'a' <= s[i] <= 'z' || s[i] == '-'
    requires s != [] && 'a' <= s[0] <= 'z' && 'a' <= s[|s| - 1] <= 'z' && s[|s| - 1] != 'n'
    requires KnownName(s).Some?
    ensures CleanAppName(s) == KnownName(s).value
  {
    LowerNoUpper(s);
    assert !EndsWith(s, ".exe") && !EndsWith(s, ".app") by {
      if |s| >= 4 {
        assert s[|s| - 4..][0] == s[|s| - 4];
      }
    }
    assert !EndsWith(s, "-bin") by {
      if |s| >= 4 {
        assert s[|s| - 4..][3] == s[|s| - 1];
      }
    }
    CleanPlain(s);
  }

  /** The part of `s` after the last separator when `s.split(sep)` scans
      from the left: `s.split(sep)[-1]`. */
  function LastSegment(s: string, sep: string): (r: string)
    requires |sep| > 0
    ensures |r| <= |s| && r == s[|s| - |r|..]
    ensures !Contains(r, sep)
    ensures !Contains(s, sep) ==> r == s
    decreases |s|
  {
    match Find(s, sep)
    case None => s
    case Some(i) => LastSegment(s[i + |sep|..], sep)
  }

  /** The name guessed from a window title: its last " - " segment, then
      that segment's last " | " segment, cleaned. */
  function TitleAppName(title: string): (r: string)
  {
    CleanAppName(LastSegment(LastSegment(title, " - "), " | "))
  }

  /** A title with neither separator is cleaned as a whole. */
  lemma PlainTitleCleanedWhole(title: string)
    requires !Contains(title, " - ") && !Contains(title, " | ")
    ensures TitleAppName(title) == CleanAppName(title)
  {
  }

  /** A title ending in " - " and a name without separator gives that
      name, provided the text before contains no separator and none
      straddles the join. */
  lemma SegmentAfterSeparator(rest: string, sep: string, app: string)
    requires |sep| > 0 && !Contains(rest, sep) && !Contains(app, sep)
    requires forall j :: |rest| - |sep| < j < |rest| ==> !OccursAt(rest + sep + app, sep, j)
    ensures LastSegment(rest + sep + app, sep) == app
  {
    var s := rest + sep + app;
    assert s[|rest|..|rest| + |sep|] == sep;
    assert OccursAt(s, sep, |rest|);
    forall j | 0 <= j < |rest| ensures !OccursAt(s, sep, j) {
      NotBeforeJoin(rest, sep, app, j);
    }
    var f := Find(s, sep);
    assert f == Some(|rest|);
    assert s[|rest| + |sep|..] == app;
  }

  /** Under the same conditions, the separator occurs nowhere before the
      join. */
  lemma NotBeforeJoin(rest: string, sep: string, app: string, j: int)
    requires |sep| > 0 && !Contains(rest, sep)
    requires forall j :: |rest| - |sep| < j < |rest| ==> !OccursAt(rest + sep + app, sep, j)
    requires 0 <= j < |rest|
    ensures !OccursAt(rest + sep + app, sep, j)
  {
    var s := rest + sep + app;
    if j + |sep| <= |rest| {
      assert s[j..j + |sep|] == rest[j..j + |sep|];
      assert !OccursAt(rest, sep, j);
    }
  }
}
