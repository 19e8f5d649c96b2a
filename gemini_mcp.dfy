/** The client for the remote model, reduced to what it does on its
    own: refusing to start without an API key, and the heuristics it falls
    back to when no model is available or a call fails: a word-count
    duration estimate and a keyword scan for distracting windows. The
    remote replies are inputs (None when the call or its parsing fails). */
module GeminiMcp {
  import opened Util

  /** The configured client: whether a remote model object is in use. */
  datatype Mcp = Mcp(useGenai: bool)

  const MissingKeyError := "Set GEMINI_API_KEY environment variable"

  /** The constructor: an absent or empty key raises ValueError;
      otherwise the client uses the remote model exactly when one could
      be created (`modelReady`), and the heuristics otherwise. */
  function Connect(apiKey: Option<string>, modelReady: bool): (r: Result<Mcp>)
    ensures r.Err? <==> apiKey == None || apiKey == Some("")
    ensures r.Err? ==> r.message == MissingKeyError
    ensures r.Ok? ==> r.value.useGenai == modelReady
  {
    if apiKey.None? || apiKey.value == "" then Err(MissingKeyError)
    else Ok(Mcp(modelReady))
  }

  // ---------------------------------------------------------------
  // Duration estimate
  // ---------------------------------------------------------------

  /** A word starts at i: a non-space character at the start or after a
      space. */
  predicate WordStart(s: string, i: int)
  {
    0 <= i < |s| && !IsSpace(s[i]) && (i == 0 || IsSpace(s[i - 1]))
  }

  /** `len(s.split())`: the number of maximal runs of non-space
      characters. */
  function Words(s: string): (n: nat)
    ensures n <= |s|
  {
    if s == [] then 0
    else Words(s[..|s| - 1]) + (if WordStart(s, |s| - 1) then 1 else 0)
  }

  /** A string of spaces has no words; a word adds at least one. */
  lemma {:induction false} WordsZero(s: string)
    ensures Words(s) == 0 <==> forall i :: 0 <= i < |s| ==> IsSpace(s[i])
  {
    if s != [] {
      var p := s[..|s| - 1];
      WordsZero(p);
      if !IsSpace(s[|s| - 1]) && Words(p) == 0 {
        if |s| > 1 {
          assert IsSpace(p[|p| - 1]);
        }
        assert WordStart(s, |s| - 1);
      }
    }
  }

  /** Words(a + " " + b) counts the words of both parts. */
  lemma {:induction false} WordsJoin(a: string, b: string)
    ensures Words(a + " " + b) == Words(a) + Words(b)
  {
    if b == [] {
      assert (a + " " + b)[..|a|] == a;
      assert !WordStart(a + " " + b, |a|);
    } else {
      var s := a + " " + b;
      var b' := b[..|b| - 1];
      WordsJoin(a, b');
      assert s[..|s| - 1] == a + " " + b';
      assert WordStart(s, |s| - 1) <==> WordStart(b, |b| - 1) by {
        if |b| > 1 {
          assert s[|s| - 2] == b[|b| - 2];
        } else {
          assert s[|s| - 2] == ' ';
        }
      }
    }
  }

  const BaseMinutes := 15.0
  const MinutesPerWord := 0.5
  const MinEstimate := 10.0
  const MaxEstimate := 480.0

  /** `max(10, min(480, 15 + 0.5 * words))` over the words of the name
      and the description joined by a space. */
  function HeuristicEstimate(name: string, description: string): (minutes: real)
    ensures MinEstimate <= minutes <= MaxEstimate
  {
    var words := Words(name + " " + description);
    MaxR(MinEstimate, MinR(MaxEstimate, BaseMinutes + MinutesPerWord * words as real))
  }

  /** The estimate is 15 minutes plus half a minute per word of the name
      and the description together, capped at eight hours; since it
      starts at 15, the 10-minute floor never applies. */
  lemma HeuristicEstimateValue(name: string, description: string)
    ensures var w := Words(name) + Words(description);
      HeuristicEstimate(name, description) ==
        if w >= 930 then MaxEstimate else BaseMinutes + MinutesPerWord * w as real
    ensures HeuristicEstimate(name, description) >= BaseMinutes
  {
    WordsJoin(name, description);
  }

  /** Longer texts never get shorter estimates. */
  lemma HeuristicEstimateMonotone(name: string, d1: string, d2: string)
    requires Words(d1) <= Words(d2)
    ensures HeuristicEstimate(name, d1) <= HeuristicEstimate(name, d2)
  {
    HeuristicEstimateValue(name, d1);
    HeuristicEstimateValue(name, d2);
  }

  /** `estimate_duration`: the remote answer when the client uses the
      remote model and the call succeeded, else the heuristic. */
  function EstimateDuration(mcp: Mcp, reply: Option<real>, name: string, description: string): (minutes: real)
    ensures !mcp.useGenai || reply.None? ==> minutes == HeuristicEstimate(name, description)
    ensures mcp.useGenai && reply.Some? ==> minutes == reply.value
  {
    if mcp.useGenai && reply.Some? then reply.value else HeuristicEstimate(name, description)
  }

  // ---------------------------------------------------------------
  // Distraction scan
  // ---------------------------------------------------------------

  /** The result dictionary of `detect_distractions`. */
  datatype DistractionReport = DistractionReport(distractions: seq<string>, rationale: string, suggestion: string)

  const Keywords: seq<string> := ["youtube", "vimeo", "netflix", "tiktok", "spotify", "vlc",
                                  "steam", "reddit", "facebook", "twitter", "instagram"]

  const NoDistractions := DistractionReport([], "No distractions detected.", "")
  const DistractionRationale := "The following open apps/tabs appear entertainment or social in nature and are unlikely required for the current task."
  const DistractionSuggestion := "Close these tabs/apps or save them for a scheduled break."

  /** Some keyword occurs in the item. */
  predicate HasKeyword(item: string)
  {
    exists k | 0 <= k < |Keywords| :: Contains(item, Keywords[k])
  }

  /** The lower-cased items that contain a keyword, each once, in input
      order. */
  function Flagged(items: seq<string>): (r: seq<string>)
    ensures |r| <= |items|
    ensures forall i :: 0 <= i < |r| ==> HasKeyword(r[i])
  {
    if items == [] then []
    else
      var last := Lower(items[|items| - 1]);
      Flagged(items[..|items| - 1]) + (if HasKeyword(last) then [last] else [])
  }

  /** Flagging two lists one after the other is flagging their
      concatenation: the scan keeps input order. */
  lemma {:induction false} FlaggedAppend(a: seq<string>, b: seq<string>)
    ensures Flagged(a + b) == Flagged(a) + Flagged(b)
  {
    if b != [] {
      FlaggedAppend(a, b[..|b| - 1]);
      assert (a + b)[..|a + b| - 1] == a + b[..|b| - 1];
    } else {
      assert a + b == a;
    }
  }

  /** A string is flagged exactly when it is the lower-case form of an
      item and contains a keyword. */
  lemma {:induction false} FlaggedMembers(items: seq<string>, x: string)
    ensures x in Flagged(items) <==> HasKeyword(x) && exists i :: 0 <= i < |items| && Lower(items[i]) == x
  {
    if items != [] {
      var p := items[..|items| - 1];
      FlaggedMembers(p, x);
      if exists i :: 0 <= i < |items| && Lower(items[i]) == x {
        var i :| 0 <= i < |items| && Lower(items[i]) == x;
        if i < |items| - 1 {
          assert p[i] == items[i];
        }
      }
    }
  }

  /** The keyword loop: each lower-cased item is tested against the
      keywords in order and appended at the first hit. */
  method FlagDistractions(openItems: seq<string>) returns (flagged: seq<string>)
    ensures flagged == Flagged(openItems)
  {
    var lowerOpen := seq(|openItems|, i requires 0 <= i < |openItems| => Lower(openItems[i]));
    flagged := [];
    for i := 0 to |lowerOpen|
      invariant flagged == Flagged(openItems[..i])
    {
      var item := lowerOpen[i];
      var k := 0;
      while k < |Keywords| && !Contains(item, Keywords[k])
        invariant 0 <= k <= |Keywords|
        invariant forall j :: 0 <= j < k ==> !Contains(item, Keywords[j])
      {
        k := k + 1;
      }
      if k < |Keywords| {
        flagged := flagged + [item];
      }
      assert openItems[..i + 1][..i] == openItems[..i];
    }
    assert openItems[..|openItems|] == openItems;
  }

  /** Some attached name (already lower-cased) occurs in the item. */
  predicate MentionsAttached(item: string, attachedLower: seq<string>)
  {
    exists a | a in attachedLower :: Contains(item, a)
  }

  /** The flagged items that mention no attached application. */
  function WithoutAttached(flagged: seq<string>, attachedLower: seq<string>): (r: seq<string>)
    ensures |r| <= |flagged|
    ensures forall x :: x in r <==> x in flagged && !MentionsAttached(x, attachedLower)
  {
    if flagged == [] then []
    else
      var rest := WithoutAttached(flagged[1..], attachedLower);
      if MentionsAttached(flagged[0], attachedLower) then rest else [flagged[0]] + rest
  }

  /** An attached application whose name is empty occurs in every item,
      so it silences every distraction. */
  lemma EmptyAttachedNameSilencesAll(flagged: seq<string>, attachedLower: seq<string>)
    requires "" in attachedLower
    ensures WithoutAttached(flagged, attachedLower) == []
  {
    forall x | x in flagged ensures MentionsAttached(x, attachedLower) {
      assert OccursAt(x, "", 0);
    }
    if WithoutAttached(flagged, attachedLower) != [] {
      assert WithoutAttached(flagged, attachedLower)[0] in WithoutAttached(flagged, attachedLower);
    }
  }

  /** With no attached application nothing is removed. */
  lemma {:induction false} NoAttachedKeepsAll(flagged: seq<string>)
    ensures WithoutAttached(flagged, []) == flagged
  {
    if flagged != [] {
      NoAttachedKeepsAll(flagged[1..]);
    }
  }

  /** The heuristic result: the flagged items that mention no attached
      application, or the fixed "nothing found" reply. */
  function HeuristicReport(attached: seq<string>, openItems: seq<string>): (r: DistractionReport)
    ensures r.distractions == [] <==> r == NoDistractions
    ensures forall x :: x in r.distractions <==>
      x in Flagged(openItems) && !MentionsAttached(x, seq(|attached|, i requires 0 <= i < |attached| => Lower(attached[i])))
  {
    var attachedLower := seq(|attached|, i requires 0 <= i < |attached| => Lower(attached[i]));
    var filtered := WithoutAttached(Flagged(openItems), attachedLower);
    if filtered == [] then NoDistractions
    else DistractionReport(filtered, DistractionRationale, DistractionSuggestion)
  }

  /** An open window flagged by keyword is reported unless it mentions an
      attached application. */
  lemma ReportedDistraction(attached: seq<string>, openItems: seq<string>, i: nat)
    requires i < |openItems| && HasKeyword(Lower(openItems[i]))
    requires forall a :: a in attached ==> !Contains(Lower(openItems[i]), Lower(a))
    ensures Lower(openItems[i]) in HeuristicReport(attached, openItems).distractions
  {
    FlaggedMembers(openItems, Lower(openItems[i]));
  }

  /** What `detect_distractions` answers: the remote reply when the
      client uses the remote model and the call succeeded, else the
      heuristic scan. */
  function Distractions(mcp: Mcp, attached: seq<string>, openItems: seq<string>, reply: Option<DistractionReport>): DistractionReport
  {
    if mcp.useGenai && reply.Some? then reply.value else HeuristicReport(attached, openItems)
  }

  /** Without a remote model, an item is reported exactly when it is the
      lower-case form of an open window that contains a keyword and
      mentions no attached application. */
  lemma HeuristicDistractions(mcp: Mcp, attached: seq<string>, openItems: seq<string>, reply: Option<DistractionReport>, x: string)
    requires !mcp.useGenai
    ensures x in Distractions(mcp, attached, openItems, reply).distractions <==>
      HasKeyword(x) && (exists i :: 0 <= i < |openItems| && Lower(openItems[i]) == x) &&
      !MentionsAttached(x, seq(|attached|, i requires 0 <= i < |attached| => Lower(attached[i])))
  {
    FlaggedMembers(openItems, x);
  }

  /** `detect_distractions`, with the keyword loop. */
  method DetectDistractions(mcp: Mcp, attached: seq<string>, openItems: seq<string>, reply: Option<DistractionReport>)
    returns (r: DistractionReport)
    ensures r == Distractions(mcp, attached, openItems, reply)
    ensures !mcp.useGenai && r != NoDistractions ==> r.rationale == DistractionRationale && |r.distractions| > 0
  {
    if mcp.useGenai && reply.Some? {
      return reply.value;
    }
    var flagged := FlagDistractions(openItems);
    var attachedLower := seq(|attached|, i requires 0 <= i < |attached| => Lower(attached[i]));
    var filtered := WithoutAttached(flagged, attachedLower);
    if filtered == [] {
      r := NoDistractions;
    } else {
      r := DistractionReport(filtered, DistractionRationale, DistractionSuggestion);
    }
  }
}
