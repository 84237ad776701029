/** The command handling of slackbot_server.py: a message is ignored when its
    timestamp was seen before; otherwise its text, with the Markdown stars
    removed, is split into tokens, and a "Plan" command is scanned for flags
    written with an optional "", "-", "--" or en-dash prefix. */
module SlackbotServer {
  import opened Wrappers

  /** The prefixes fuzzy_parameters puts in front of each word, in order. */
  const PREFIXES: seq<string> := ["", "-", "--", "\U{2013}"]

  // ---------------------------------------------------------- fuzzy_parameters

  /** Every word under every prefix: for each word in turn, the four prefixed
      forms in the order of PREFIXES. */
  function Fuzzy(params: seq<string>): (r: seq<string>)
    ensures |r| == 4 * |params|
  {
    if params == [] then []
    else
      var last := params[|params| - 1];
      Fuzzy(params[..|params| - 1]) + [PREFIXES[0] + last, PREFIXES[1] + last, PREFIXES[2] + last, PREFIXES[3] + last]
  }

  /** The element at 4 i + j is the j-th prefix in front of the i-th word. */
  lemma {:induction false} FuzzyAt(params: seq<string>, i: nat, j: nat)
    requires i < |params| && j < 4
    ensures 4 * i + j < |Fuzzy(params)|
    ensures Fuzzy(params)[4 * i + j] == PREFIXES[j] + params[i]
  {
    var init := params[..|params| - 1];
    if i < |params| - 1 {
      FuzzyAt(init, i, j);
      assert Fuzzy(params)[4 * i + j] == Fuzzy(init)[4 * i + j];
    } else {
      assert 4 * i + j == |Fuzzy(init)| + j;
    }
  }

  /** The membership test the message handler relies on: a token is among the
      fuzzy parameters exactly when it is one of the words behind one of the
      prefixes. */
  lemma FuzzyMembership(params: seq<string>, s: string)
    ensures s in Fuzzy(params) <==> exists j, i :: 0 <= j < 4 && 0 <= i < |params| && s == PREFIXES[j] + params[i]
  {
    var r := Fuzzy(params);
    if s in r {
      var k :| 0 <= k < |r| && r[k] == s;
      var i, j := k / 4, k % 4;
      assert k == 4 * i + j && j < 4 && i < |params|;
      FuzzyAt(params, i, j);
    }
    if exists j, i :: 0 <= j < 4 && 0 <= i < |params| && s == PREFIXES[j] + params[i] {
      var j, i :| 0 <= j < 4 && 0 <= i < |params| && s == PREFIXES[j] + params[i];
      FuzzyAt(params, i, j);
    }
  }

  /** Every word is among its own fuzzy parameters, unprefixed. */
  lemma FuzzyKeepsWords(params: seq<string>)
    ensures forall i :: 0 <= i < |params| ==> params[i] in Fuzzy(params)
  {
    forall i | 0 <= i < |params|
      ensures params[i] in Fuzzy(params)
    {
      FuzzyAt(params, i, 0);
      assert PREFIXES[0] + params[i] == params[i];
    }
  }

  /** fuzzy_parameters: the nested loops append prefix + word for each word
      and each prefix. */
  method FuzzyParameters(paramList: seq<string>) returns (fuzzy: seq<string>)
    ensures fuzzy == Fuzzy(paramList)
  {
    fuzzy := [];
    for i := 0 to |paramList|
      invariant fuzzy == Fuzzy(paramList[..i])
    {
      var param := paramList[i];
      ghost var before := fuzzy;
      for j := 0 to |PREFIXES|
        invariant fuzzy == before + seq(j, k requires 0 <= k < j => PREFIXES[k] + param)
      {
        fuzzy := fuzzy + [PREFIXES[j] + param];
      }
      assert paramList[..i + 1][..i] == paramList[..i];
    }
    assert paramList[..|paramList|] == paramList;
  }

  // ---------------------------------------------------------------- the flags

  const HELP_WORDS: seq<string> := ["help", "h", "HELP"]
  const MULTIDAY_WORDS: seq<string> := ["multiday", "MULTIDAY", "Multiday", "multi", "MULTI", "Multi"]
  const SWITCH_WORDS: seq<string> :=
    ["switchfilters", "switch_filters", "switchfilter", "switch_filter",
     "switchbands", "switch_bands", "switchband", "switch_band"]
  const SUBMIT_WORDS: seq<string> := ["submit", "trigger", "Submit", "Trigger", "SUBMIT", "TRIGGER"]
  const RA_WORDS: seq<string> := ["ra", "RA", "Ra"]
  const DEC_WORDS: seq<string> := ["dec", "Dec", "DEC"]
  const DATE_WORDS: seq<string> := ["date", "DATE", "Date"]
  const AIRMASS_WORDS: seq<string> := ["airmass", "AIRMASS", "Airmass"]
  const TOMORROW_WORDS: seq<string> := ["tomorrow", "TOMORROW", "Tomorrow"]
  const SITE_WORDS: seq<string> := ["site", "Site", "telescope", "Telescope"]

  /** The boolean flags a "Plan" command sets. doPlan is the value after the
      flag scan; the later site and name checks, not part of this model, may
      still clear it. */
  datatype PlanFlags = PlanFlags(
    doPlan: bool,
    displayHelp: bool,
    multiday: bool,
    switchFilters: bool,
    submitTrigger: bool)

  /** Some token is a fuzzy variant of one of the words. */
  predicate Mentions(tokens: seq<string>, words: seq<string>) {
    exists i :: 0 <= i < |tokens| && tokens[i] in Fuzzy(words)
  }

  /** The flags of a token list: help stops the plan; a switch word swaps
      the filters; submit or trigger sends the trigger and also selects the
      multi-day plan. */
  function FlagsOf(tokens: seq<string>): (f: PlanFlags)
    ensures f.displayHelp <==> Mentions(tokens, HELP_WORDS)
    ensures f.doPlan <==> !f.displayHelp
    ensures f.multiday <==> Mentions(tokens, MULTIDAY_WORDS) || Mentions(tokens, SUBMIT_WORDS)
    ensures f.switchFilters <==> Mentions(tokens, SWITCH_WORDS)
    ensures f.submitTrigger <==> Mentions(tokens, SUBMIT_WORDS)
    ensures f.submitTrigger ==> f.multiday
  {
    var help := Mentions(tokens, HELP_WORDS);
    var submit := Mentions(tokens, SUBMIT_WORDS);
    PlanFlags(!help, help, Mentions(tokens, MULTIDAY_WORDS) || submit, Mentions(tokens, SWITCH_WORDS), submit)
  }

  /** One pass of the flag scan: whether some token is among the variants. */
  method AnyTokenIn(splitText: seq<string>, variants: seq<string>) returns (found: bool)
    ensures found <==> exists k :: 0 <= k < |splitText| && splitText[k] in variants
  {
    found := false;
    for i := 0 to |splitText|
      invariant found <==> exists k :: 0 <= k < i && splitText[k] in variants
    {
      if splitText[i] in variants {
        found := true;
      }
    }
  }

  /** The flag scan of message(): one pass over the tokens per group of
      words; help clears doPlan, and submit or trigger also sets multiday. */
  method ScanFlags(splitText: seq<string>) returns (flags: PlanFlags)
    ensures flags == FlagsOf(splitText)
  {
    var doPlan, displayHelp, multiday, switchFilters, submitTrigger := true, false, false, false, false;
    var helpVariants := FuzzyParameters(HELP_WORDS);
    var help := AnyTokenIn(splitText, helpVariants);
    if help {
      doPlan := false;
      displayHelp := true;
    }
    var multidayVariants := FuzzyParameters(MULTIDAY_WORDS);
    multiday := AnyTokenIn(splitText, multidayVariants);
    var switchVariants := FuzzyParameters(SWITCH_WORDS);
    switchFilters := AnyTokenIn(splitText, switchVariants);
    var submitVariants := FuzzyParameters(SUBMIT_WORDS);
    var submit := AnyTokenIn(splitText, submitVariants);
    if submit {
      submitTrigger := true;
      multiday := true;
    }
    flags := PlanFlags(doPlan, displayHelp, multiday, switchFilters, submitTrigger);
  }

  /** Any prefixed form of a help word, anywhere among the tokens, turns
      help on and the plan off. */
  lemma HelpVariantStopsPlan(tokens: seq<string>, i: nat, j: nat, w: nat)
    requires i < |tokens| && j < 4 && w < |HELP_WORDS|
    requires tokens[i] == PREFIXES[j] + HELP_WORDS[w]
    ensures FlagsOf(tokens).displayHelp && !FlagsOf(tokens).doPlan
  {
    FuzzyMembership(HELP_WORDS, tokens[i]);
  }

  /** Any prefixed form of a submit or trigger word turns on both the
      submission and the multi-day plan. */
  lemma SubmitVariantSelectsMultiday(tokens: seq<string>, i: nat, j: nat, w: nat)
    requires i < |tokens| && j < 4 && w < |SUBMIT_WORDS|
    requires tokens[i] == PREFIXES[j] + SUBMIT_WORDS[w]
    ensures FlagsOf(tokens).submitTrigger && FlagsOf(tokens).multiday
  {
    FuzzyMembership(SUBMIT_WORDS, tokens[i]);
  }

  // ---------------------------------------------------------- the value scans

  /** The Python exceptions a "Plan" command can raise before anything is posted. */
  datatype PyError =
    | IndexError      // split_text[i + 1] after the last token
    | ValueError      // float() of a value that is not a number
    | AttributeError  // datetime.utcnow() on the datetime module
    | TypeError       // get_help_message() without its user argument

  /** A value scan from token i on: each token among the variants reads the
      next token, split_text[i + 1], and passes it to float() when `parses`.
      The first failure: IndexError when the variant is the last token,
      ValueError when float() rejects the value. `isFloat` stands for whether
      float() accepts a string. */
  function ValueScan(tokens: seq<string>, variants: seq<string>, parses: bool, isFloat: string -> bool, i: nat)
    : (e: Option<PyError>)
    requires i <= |tokens|
    ensures e.Some? ==> e.value == IndexError || (parses && e.value == ValueError)
    decreases |tokens| - i
  {
    if i == |tokens| then None
    else if tokens[i] in variants && i + 1 == |tokens| then Some(IndexError)
    else if tokens[i] in variants && parses && !isFloat(tokens[i + 1]) then Some(ValueError)
    else ValueScan(tokens, variants, parses, isFloat, i + 1)
  }

  /** A value scan raises nothing exactly when every variant from token i on
      is followed by a value, and by one float() accepts where it is parsed. */
  lemma {:induction false} ValueScanSucceeds(
    tokens: seq<string>, variants: seq<string>, parses: bool, isFloat: string -> bool, i: nat)
    requires i <= |tokens|
    ensures ValueScan(tokens, variants, parses, isFloat, i).None? <==>
              forall k :: i <= k < |tokens| && tokens[k] in variants ==>
                            k + 1 < |tokens| && (parses ==> isFloat(tokens[k + 1]))
    decreases |tokens| - i
  {
    if i < |tokens| {
      ValueScanSucceeds(tokens, variants, parses, isFloat, i + 1);
    }
  }

  /** One value scan of message(), stopping at the first exception. */
  method ScanValues(splitText: seq<string>, variants: seq<string>, parses: bool, isFloat: string -> bool)
    returns (e: Option<PyError>)
    ensures e == ValueScan(splitText, variants, parses, isFloat, 0)
  {
    for i := 0 to |splitText|
      invariant ValueScan(splitText, variants, parses, isFloat, 0) == ValueScan(splitText, variants, parses, isFloat, i)
    {
      if splitText[i] in variants {
        if i + 1 == |splitText| {
          return Some(IndexError);
        }
        if parses && !isFloat(splitText[i + 1]) {
          return Some(ValueError);
        }
      }
    }
    return None;
  }

  /** The exception a "Plan name ..." command raises, in the order the handler
      meets them: the ra/dec scan, the date scan and the airmass scan, then
      the tomorrow scan (datetime.utcnow() on the datetime module), the help
      reply (get_help_message() without its user argument) and the site scan. */
  function PlanCrash(tokens: seq<string>, isFloat: string -> bool): Option<PyError> {
    var raDec := ValueScan(tokens, Fuzzy(RA_WORDS) + Fuzzy(DEC_WORDS), true, isFloat, 0);
    var date := ValueScan(tokens, Fuzzy(DATE_WORDS), false, isFloat, 0);
    var airmass := ValueScan(tokens, Fuzzy(AIRMASS_WORDS), true, isFloat, 0);
    if raDec.Some? then raDec
    else if date.Some? then date
    else if airmass.Some? then airmass
    else if Mentions(tokens, TOMORROW_WORDS) then Some(AttributeError)
    else if Mentions(tokens, HELP_WORDS) then Some(TypeError)
    else ValueScan(tokens, Fuzzy(SITE_WORDS), false, isFloat, 0)
  }

  // ----------------------------------------------------------- tokenising

  /** Python's str.isspace() on one character: the characters str.split()
      with no argument separates on. */
  predicate IsSpace(c: char) {
    || c == ' ' || ('\t' <= c <= '\r') || ('\U{1C}' <= c <= '\U{1F}')
    || c == '\U{85}' || c == '\U{A0}' || c == '\U{1680}' || ('\U{2000}' <= c <= '\U{200A}')
    || c == '\U{2028}' || c == '\U{2029}' || c == '\U{202F}' || c == '\U{205F}' || c == '\U{3000}'
  }

  /** text.replace("*", ""): a star is dropped, any other character kept. */
  function RemoveStars(s: string): (r: string)
    ensures '*' !in r
    ensures |r| <= |s|
    ensures |s| == 1 ==> r == (if s[0] == '*' then "" else s)
  {
    if s == [] then [] else (if s[0] == '*' then [] else [s[0]]) + RemoveStars(s[1..])
  }

  /** Removing the stars works piece by piece, so with the one-character case
      it fixes the result of every string. */
  lemma {:induction false} RemoveStarsConcat(a: string, b: string)
    ensures RemoveStars(a + b) == RemoveStars(a) + RemoveStars(b)
    decreases |a|
  {
    if a == [] {
      assert a + b == b;
    } else {
      assert (a + b)[0] == a[0] && (a + b)[1..] == a[1..] + b;
      RemoveStarsConcat(a[1..], b);
    }
  }

  /** A text without stars is left as it is. */
  lemma {:induction false} RemoveStarsKeepsStarless(s: string)
    requires '*' !in s
    ensures RemoveStars(s) == s
    decreases |s|
  {
    if s != [] {
      assert s[0] in s;
      assert forall c :: c in s[1..] ==> c in s;
      RemoveStarsKeepsStarless(s[1..]);
    }
  }

  /** The characters of s that are not whitespace, in order. */
  function NonSpace(s: string): string {
    if s == [] then [] else (if IsSpace(s[0]) then [] else [s[0]]) + NonSpace(s[1..])
  }

  function Concat(parts: seq<string>): string {
    if parts == [] then [] else parts[0] + Concat(parts[1..])
  }

  /** A token: non-empty and free of whitespace. */
  predicate IsToken(t: string) {
    |t| > 0 && forall k :: 0 <= k < |t| ==> !IsSpace(t[k])
  }

  /** str.split() reading s after the characters of the token in progress,
      `current`. */
  function SplitFrom(s: string, current: string): seq<string>
    decreases |s|
  {
    if s == [] then (if current == [] then [] else [current])
    else if IsSpace(s[0]) then (if current == [] then [] else [current]) + SplitFrom(s[1..], [])
    else SplitFrom(s[1..], current + [s[0]])
  }

  lemma {:induction false} SplitFromTokens(s: string, current: string)
    requires forall k :: 0 <= k < |current| ==> !IsSpace(current[k])
    ensures forall t :: t in SplitFrom(s, current) ==> IsToken(t)
    ensures Concat(SplitFrom(s, current)) == current + NonSpace(s)
    decreases |s|
  {
    if s == [] {
      if current != [] {
        assert Concat([current]) == current + Concat([]);
      }
    } else if IsSpace(s[0]) {
      SplitFromTokens(s[1..], []);
      var rest := SplitFrom(s[1..], []);
      assert NonSpace(s) == NonSpace(s[1..]);
      assert Concat(rest) == NonSpace(s[1..]) by {
        assert [] + NonSpace(s[1..]) == NonSpace(s[1..]);
      }
      if current != [] {
        assert SplitFrom(s, current) == [current] + rest;
        assert Concat([current] + rest) == current + Concat(rest) by {
          assert ([current] + rest)[1..] == rest;
        }
      } else {
        assert SplitFrom(s, current) == rest;
      }
    } else {
      SplitFromTokens(s[1..], current + [s[0]]);
      assert current + [s[0]] + NonSpace(s[1..]) == current + ([s[0]] + NonSpace(s[1..]));
    }
  }

  /** str.split() with no argument: the tokens are non-empty, hold no
      whitespace and, put back together, give exactly the non-whitespace
      characters. */
  function Split(s: string): (r: seq<string>)
    ensures forall t :: t in r ==> IsToken(t)
    ensures Concat(r) == NonSpace(s)
  {
    SplitFromTokens(s, []);
    assert [] + NonSpace(s) == NonSpace(s);
    SplitFrom(s, [])
  }

  lemma {:induction false} SplitFromAtSpace(a: string, c: char, b: string, current: string)
    requires IsSpace(c)
    ensures SplitFrom(a + [c] + b, current) == SplitFrom(a, current) + SplitFrom(b, [])
    decreases |a|
  {
    var s := a + [c] + b;
    if a == [] {
      assert s[0] == c && s[1..] == b;
    } else {
      assert s[0] == a[0] && s[1..] == a[1..] + [c] + b;
      if IsSpace(a[0]) {
        SplitFromAtSpace(a[1..], c, b, []);
        var open := if current == [] then [] else [current];
        assert open + (SplitFrom(a[1..], []) + SplitFrom(b, []))
               == (open + SplitFrom(a[1..], [])) + SplitFrom(b, []);
      } else {
        SplitFromAtSpace(a[1..], c, b, current + [a[0]]);
      }
    }
  }

  /** Tokens are maximal: whitespace separates, so split() of a + [c] + b is
      split() of a followed by split() of b. */
  lemma SplitAtSpace(a: string, c: char, b: string)
    requires IsSpace(c)
    ensures Split(a + [c] + b) == Split(a) + Split(b)
  {
    SplitFromAtSpace(a, c, b, []);
  }

  lemma {:induction false} SplitFromWord(w: string, current: string)
    requires |current| + |w| > 0
    requires forall k :: 0 <= k < |w| ==> !IsSpace(w[k])
    ensures SplitFrom(w, current) == [current + w]
    decreases |w|
  {
    if w == [] {
      assert current + w == current;
    } else {
      SplitFromWord(w[1..], current + [w[0]]);
      assert current + [w[0]] + w[1..] == current + w;
    }
  }

  /** A word without whitespace is one token, not split any further. */
  lemma SplitOfToken(w: string)
    requires IsToken(w)
    ensures Split(w) == [w]
  {
    SplitFromWord(w, []);
    assert [] + w == w;
  }

  /** The tokens of a message text. */
  function Tokens(text: string): seq<string> {
    Split(RemoveStars(text))
  }

  lemma RemoveStarsOfStarredPlan()
    ensures RemoveStars("*Plan*") == "Plan"
  {
    assert RemoveStars("*") == [];
    assert RemoveStars("n*") == "n";
    assert RemoveStars("an*") == "an";
    assert RemoveStars("lan*") == "lan";
    assert RemoveStars("Plan*") == "Plan";
  }

  lemma SplitOfPlan()
    ensures Split("Plan") == ["Plan"]
  {
    assert SplitFrom("", "Plan") == ["Plan"];
    assert "n"[1..] == [] && "n"[0] == 'n' && "Pla" + ['n'] == "Plan";
    assert "an"[1..] == "n" && "an"[0] == 'a' && "Pl" + ['a'] == "Pla";
    assert "lan"[1..] == "an" && "lan"[0] == 'l' && "P" + ['l'] == "Pl";
    assert "Plan"[1..] == "lan" && "Plan"[0] == 'P' && [] + ['P'] == "P";
  }

  /** Markdown emphasis does not change the tokens: "*Plan*" is the single
      token "Plan". */
  lemma StarredPlanIsPlan()
    ensures Tokens("*Plan*") == ["Plan"]
  {
    RemoveStarsOfStarredPlan();
    SplitOfPlan();
  }

  // ---------------------------------------------------------- the message

  /** What the handler does with a message: nothing for a repeated one or an
      empty text, the help message, a plan with its flags, an exception that
      ends the handler before anything is posted, the Queue command (whose
      sub-commands are not part of this model), or nothing for a text that
      is no command at all. */
  datatype Reply =
    | Ignored
    | NoReply
    | HelpReply
    | PlanReply(name: string, flags: PlanFlags)
    | Crashed(error: PyError)
    | QueueCommand
    | NotACommand

  predicate IsPlanCommand(tokens: seq<string>) {
    |tokens| >= 1 && (tokens[0] == "Plan" || tokens[0] == "plan")
  }

  predicate IsQueueCommand(tokens: seq<string>) {
    |tokens| >= 1 && (tokens[0] == "QUEUE" || tokens[0] == "Queue" || tokens[0] == "queue")
  }

  /** The reply to the tokens of a new message. Help is only ever posted for
      a bare "Plan"; a named plan command is planned or crashes; a first
      token that is neither Plan nor Queue is no command. */
  function Respond(tokens: seq<string>, isFloat: string -> bool): (r: Reply)
    ensures r == HelpReply <==> IsPlanCommand(tokens) && |tokens| == 1
    ensures r.PlanReply? || r.Crashed? ==> IsPlanCommand(tokens) && |tokens| >= 2
    ensures r.PlanReply? ==> r.name == tokens[1] && r.flags == FlagsOf(tokens) && !r.flags.displayHelp
    ensures r == NoReply <==> tokens == []
    ensures IsPlanCommand(tokens) && |tokens| >= 2 ==> r.PlanReply? || r.Crashed?
    ensures r == QueueCommand <==> IsQueueCommand(tokens)
    ensures r == NotACommand <==> |tokens| >= 1 && !IsPlanCommand(tokens) && !IsQueueCommand(tokens)
    ensures r != Ignored
  {
    if |tokens| == 0 then NoReply
    else if IsPlanCommand(tokens) then
      if |tokens| == 1 then HelpReply
      else
        match PlanCrash(tokens, isFloat)
        case Some(e) => Crashed(e)
        case None => PlanReply(tokens[1], FlagsOf(tokens))
    else if IsQueueCommand(tokens) then QueueCommand
    else NotACommand
  }

  /** A bare "Plan" or "plan" is answered with the help message only. */
  lemma BarePlanGivesHelp(text: string, isFloat: string -> bool)
    requires Tokens(text) == ["Plan"] || Tokens(text) == ["plan"]
    ensures Respond(Tokens(text), isFloat) == HelpReply
  {
  }

  /** A help flag after the name never brings the help message: the help
      branch calls get_help_message() without its user argument, so the
      handler raises before posting. */
  lemma HelpAfterNameCrashes(tokens: seq<string>, i: nat, j: nat, w: nat, isFloat: string -> bool)
    requires IsPlanCommand(tokens) && |tokens| >= 2
    requires i < |tokens| && j < 4 && w < |HELP_WORDS| && tokens[i] == PREFIXES[j] + HELP_WORDS[w]
    ensures Respond(tokens, isFloat).Crashed?
  {
    HelpVariantStopsPlan(tokens, i, j, w);
  }

  /** A "tomorrow" flag in any form makes the handler raise. */
  lemma TomorrowCrashes(tokens: seq<string>, i: nat, j: nat, w: nat, isFloat: string -> bool)
    requires IsPlanCommand(tokens) && |tokens| >= 2
    requires i < |tokens| && j < 4 && w < |TOMORROW_WORDS| && tokens[i] == PREFIXES[j] + TOMORROW_WORDS[w]
    ensures Respond(tokens, isFloat).Crashed?
  {
    FuzzyMembership(TOMORROW_WORDS, tokens[i]);
  }

  /** A value flag (ra, dec, date, airmass or site, in any form) as the last
      token has no value to read, and the handler raises. */
  lemma TrailingValueFlagCrashes(tokens: seq<string>, isFloat: string -> bool)
    requires IsPlanCommand(tokens) && |tokens| >= 2
    requires var last := tokens[|tokens| - 1];
             || last in Fuzzy(RA_WORDS) || last in Fuzzy(DEC_WORDS) || last in Fuzzy(DATE_WORDS)
             || last in Fuzzy(AIRMASS_WORDS) || last in Fuzzy(SITE_WORDS)
    ensures Respond(tokens, isFloat).Crashed?
  {
    var k := |tokens| - 1;
    ValueScanSucceeds(tokens, Fuzzy(RA_WORDS) + Fuzzy(DEC_WORDS), true, isFloat, 0);
    ValueScanSucceeds(tokens, Fuzzy(DATE_WORDS), false, isFloat, 0);
    ValueScanSucceeds(tokens, Fuzzy(AIRMASS_WORDS), true, isFloat, 0);
    ValueScanSucceeds(tokens, Fuzzy(SITE_WORDS), false, isFloat, 0);
    assert tokens[k] in Fuzzy(RA_WORDS) || tokens[k] in Fuzzy(DEC_WORDS) ==> tokens[k] in Fuzzy(RA_WORDS) + Fuzzy(DEC_WORDS);
  }

  /** A plan reply comes only from a command without help or tomorrow flags
      whose value flags are all followed by a value, a number where float()
      reads it. */
  lemma PlanReplyShape(tokens: seq<string>, isFloat: string -> bool)
    requires Respond(tokens, isFloat).PlanReply?
    ensures !Mentions(tokens, HELP_WORDS) && !Mentions(tokens, TOMORROW_WORDS)
    ensures forall k :: 0 <= k < |tokens| && (tokens[k] in Fuzzy(RA_WORDS) || tokens[k] in Fuzzy(DEC_WORDS)
                                               || tokens[k] in Fuzzy(AIRMASS_WORDS)) ==>
              k + 1 < |tokens| && isFloat(tokens[k + 1])
    ensures forall k :: 0 <= k < |tokens| && (tokens[k] in Fuzzy(DATE_WORDS) || tokens[k] in Fuzzy(SITE_WORDS)) ==>
              k + 1 < |tokens|
  {
    ValueScanSucceeds(tokens, Fuzzy(RA_WORDS) + Fuzzy(DEC_WORDS), true, isFloat, 0);
    ValueScanSucceeds(tokens, Fuzzy(DATE_WORDS), false, isFloat, 0);
    ValueScanSucceeds(tokens, Fuzzy(AIRMASS_WORDS), true, isFloat, 0);
    ValueScanSucceeds(tokens, Fuzzy(SITE_WORDS), false, isFloat, 0);
  }

  /** Conversely, a plan command with a name, without help or tomorrow
      flags and with every value flag followed by a value (a number where
      float() reads it) is answered with the plan for that name; together
      with PlanReplyShape, a named plan command crashes exactly when one of
      these conditions fails. */
  lemma PlanReplyWhenFlagsComplete(tokens: seq<string>, isFloat: string -> bool)
    requires IsPlanCommand(tokens) && |tokens| >= 2
    requires !Mentions(tokens, HELP_WORDS) && !Mentions(tokens, TOMORROW_WORDS)
    requires forall k :: 0 <= k < |tokens| && (tokens[k] in Fuzzy(RA_WORDS) || tokens[k] in Fuzzy(DEC_WORDS)
                                                || tokens[k] in Fuzzy(AIRMASS_WORDS)) ==>
               k + 1 < |tokens| && isFloat(tokens[k + 1])
    requires forall k :: 0 <= k < |tokens| && (tokens[k] in Fuzzy(DATE_WORDS) || tokens[k] in Fuzzy(SITE_WORDS)) ==>
               k + 1 < |tokens|
    ensures Respond(tokens, isFloat) == PlanReply(tokens[1], FlagsOf(tokens))
  {
    ValueScanSucceeds(tokens, Fuzzy(RA_WORDS) + Fuzzy(DEC_WORDS), true, isFloat, 0);
    ValueScanSucceeds(tokens, Fuzzy(DATE_WORDS), false, isFloat, 0);
    ValueScanSucceeds(tokens, Fuzzy(AIRMASS_WORDS), true, isFloat, 0);
    ValueScanSucceeds(tokens, Fuzzy(SITE_WORDS), false, isFloat, 0);
  }

  /** The "Plan name ..." branch of message(): the flag scans, the value
      scans in the handler's order, and the exceptions they raise. */
  method PlanCommand(splitText: seq<string>, isFloat: string -> bool) returns (reply: Reply)
    requires IsPlanCommand(splitText) && |splitText| >= 2
    ensures reply == Respond(splitText, isFloat)
  {
    var name := splitText[1];
    var flags := ScanFlags(splitText);
    var raVariants := FuzzyParameters(RA_WORDS);
    var decVariants := FuzzyParameters(DEC_WORDS);
    var err := ScanValues(splitText, raVariants + decVariants, true, isFloat);
    if err.Some? {
      return Crashed(err.value);
    }
    var dateVariants := FuzzyParameters(DATE_WORDS);
    err := ScanValues(splitText, dateVariants, false, isFloat);
    if err.Some? {
      return Crashed(err.value);
    }
    var airmassVariants := FuzzyParameters(AIRMASS_WORDS);
    err := ScanValues(splitText, airmassVariants, true, isFloat);
    if err.Some? {
      return Crashed(err.value);
    }
    var tomorrowVariants := FuzzyParameters(TOMORROW_WORDS);
    var tomorrow := AnyTokenIn(splitText, tomorrowVariants);
    if tomorrow {
      return Crashed(AttributeError);
    }
    if flags.displayHelp {
      return Crashed(TypeError);
    }
    var siteVariants := FuzzyParameters(SITE_WORDS);
    err := ScanValues(splitText, siteVariants, false, isFloat);
    if err.Some? {
      return Crashed(err.value);
    }
    return PlanReply(name, flags);
  }

  /** The message handler with its list of seen timestamps, ts_old. */
  class MessageHandler {
    var tsOld: seq<string>

    /** No timestamp is recorded twice. */
    ghost predicate Valid()
      reads this
    {
      forall i, j :: 0 <= i < j < |tsOld| ==> tsOld[i] != tsOld[j]
    }

    constructor ()
      ensures tsOld == [] && Valid()
    {
      tsOld := [];
    }

    /** message(payload): a timestamp seen before is ignored and changes
        nothing; a new one is recorded once, before anything can raise, and
        the text is answered. */
    method Message(ts: string, text: string, isFloat: string -> bool) returns (reply: Reply)
      requires Valid()
      modifies this
      ensures Valid()
      ensures ts in old(tsOld) ==> reply == Ignored && tsOld == old(tsOld)
      ensures ts !in old(tsOld) ==> tsOld == old(tsOld) + [ts] && reply == Respond(Tokens(text), isFloat)
    {
      if ts in tsOld {
        return Ignored;
      }
      tsOld := tsOld + [ts];
      var splitText := Split(RemoveStars(text));
      if |splitText| == 0 {
        return NoReply;
      }
      if splitText[0] == "Plan" || splitText[0] == "plan" {
        if |splitText| == 1 {
          return HelpReply;
        }
        reply := PlanCommand(splitText, isFloat);
        return;
      }
      if splitText[0] in ["QUEUE", "Queue", "queue"] {
        return QueueCommand;
      }
      return NotACommand;
    }
  }

  /** Recording a new timestamp keeps the timestamps distinct, so a second
      delivery of the same message finds its timestamp and is ignored. */
  lemma RecordingKeepsDistinct(tsOld: seq<string>, ts: string)
    requires forall i, j :: 0 <= i < j < |tsOld| ==> tsOld[i] != tsOld[j]
    requires ts !in tsOld
    ensures var now := tsOld + [ts];
            && (forall i, j :: 0 <= i < j < |now| ==> now[i] != now[j])
            && ts in now
  {
    var now := tsOld + [ts];
    forall i, j | 0 <= i < j < |now|
      ensures now[i] != now[j]
    {
      if j == |tsOld| {
        assert now[i] == tsOld[i];
      }
    }
  }
}
