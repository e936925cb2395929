/** `yesno`, the interactive confirmation used by the post-generation hook.
    It keeps asking until the (stripped) response is empty, a yes or a no,
    and returns whether the DEFAULT was chosen, not whether "yes" was said. */
module Confirm {
  import opened PyText

  datatype Choice = Yes | No

  /** The `default` argument: only "yes" and "no" are accepted; any other
      value makes yesno raise ValueError. */
  function ParseDefault(default: string): (r: Option<Choice>)
    ensures r == Some(Yes) <==> default == "yes"
    ensures r == Some(No) <==> default == "no"
    ensures r == None <==> default != "yes" && default != "no"
  {
    if default == "yes" then Some(Yes) else if default == "no" then Some(No) else None
  }

  /** The marker names the default in upper case. */
  function Marker(d: Choice): string
  {
    if d == Yes then "[Y/n]" else "[y/N]"
  }

  /** The text shown on each read: the message and a space when there is a
      message, then the marker, then the suffix. */
  function PromptText(message: string, d: Choice, suffix: string): (r: string)
    ensures |r| == (if message != "" then |message| + 1 else 0) + 5 + |suffix|
    ensures message != "" ==> r[..|message| + 1] == message + " "
    ensures r[|r| - |suffix| - 5..] == Marker(d) + suffix
  {
    if message != "" then message + " " + Marker(d) + suffix else Marker(d) + suffix
  }

  /** `re.match("^(y)(es)?$", response, re.IGNORECASE)`. */
  predicate SaysYes(response: string) {
    |response| >= 1 && MatchesIgnoreCase('y', response[0])
    && (DollarAt(response, 1)
        || (|response| >= 3 && MatchesIgnoreCase('e', response[1])
            && MatchesIgnoreCase('s', response[2]) && DollarAt(response, 3)))
  }

  /** `re.match("^(n)(o)?$", response, re.IGNORECASE)`. */
  predicate SaysNo(response: string) {
    |response| >= 1 && MatchesIgnoreCase('n', response[0])
    && (DollarAt(response, 1)
        || (|response| >= 2 && MatchesIgnoreCase('o', response[1]) && DollarAt(response, 2)))
  }

  /** Case-insensitive spellings: `y`, `Y`, `yes`, `YeS`, `n`, `No`, `NO`
      are recognised; `ye`, `yess`, `nope` and `o` are not. */
  lemma RecognisedSpellings()
    ensures SaysYes("y") && SaysYes("Y") && SaysYes("yes") && SaysYes("YeS")
    ensures SaysNo("n") && SaysNo("No") && SaysNo("NO")
    ensures !SaysYes("ye") && !SaysYes("yess") && !SaysNo("nope") && !SaysNo("o")
  {
  }

  /** The case-folded spellings `re.match` accepts for yes, a final
      newline included. */
  const YesSpellings: set<string> := {"y", "yes", "y\n", "yes\n"}
  const NoSpellings: set<string> := {"n", "no", "n\n", "no\n"}

  /** A response says yes iff it folds to one of the yes spellings. */
  lemma SaysYesIffFolded(response: string)
    ensures SaysYes(response) <==> FoldAll(response) in YesSpellings
  {
    var f := FoldAll(response);
    if |response| >= 1 {
      MatchesIgnoreCaseIsFold('y', response[0]);
    }
    if |response| >= 2 {
      MatchesIgnoreCaseIsFold('e', response[1]);
      FoldNewline(response[1]);
    }
    if |response| >= 3 {
      MatchesIgnoreCaseIsFold('s', response[2]);
    }
    if |response| >= 4 {
      FoldNewline(response[3]);
    }
    if SaysYes(response) {
      assert f == "y" || f == "yes" || f == "y\n" || f == "yes\n";
    }
  }

  /** A response says no iff it folds to one of the no spellings. */
  lemma SaysNoIffFolded(response: string)
    ensures SaysNo(response) <==> FoldAll(response) in NoSpellings
  {
    var f := FoldAll(response);
    if |response| >= 1 {
      MatchesIgnoreCaseIsFold('n', response[0]);
    }
    if |response| >= 2 {
      MatchesIgnoreCaseIsFold('o', response[1]);
      FoldNewline(response[1]);
    }
    if |response| >= 3 {
      FoldNewline(response[2]);
    }
    if SaysNo(response) {
      assert f == "n" || f == "no" || f == "n\n" || f == "no\n";
    }
  }

  /** No response is both a yes and a no. */
  lemma YesAndNoDisjoint(response: string)
    ensures !(SaysYes(response) && SaysNo(response))
  {
  }

  /** How one stripped response is read. */
  datatype Reply = Blank | Said(choice: Choice) | Unrecognised

  function Classify(response: string): (r: Reply)
    ensures r == Blank <==> response == ""
    ensures r == Said(Yes) <==> response != "" && SaysYes(response)
    ensures r == Said(No) <==> response != "" && SaysNo(response)
  {
    if response == "" then Blank
    else if SaysYes(response) then Said(Yes)
    else if SaysNo(response) then Said(No)
    else Unrecognised
  }

  /** `get_user_input`: the line as typed, stripped. */
  function Reading(line: string): Reply {
    Classify(Strip(line))
  }

  /** How a typed line is read, in terms of its stripped, case-folded form:
      blank, one of the yes spellings, one of the no spellings, or none. */
  lemma ReadingByFold(line: string)
    ensures Reading(line) == Blank <==> Strip(line) == ""
    ensures Reading(line) == Said(Yes) <==> FoldAll(Strip(line)) in YesSpellings
    ensures Reading(line) == Said(No) <==> FoldAll(Strip(line)) in NoSpellings
    ensures Reading(line) == Unrecognised <==>
      Strip(line) != "" && FoldAll(Strip(line)) !in YesSpellings && FoldAll(Strip(line)) !in NoSpellings
  {
    SaysYesIffFolded(Strip(line));
    SaysNoIffFolded(Strip(line));
  }

  /** The value yesno returns for one reply, or None to ask again. */
  function Resolve(d: Choice, reply: Reply): (r: Option<bool>)
    ensures reply == Blank ==> r == Some(true)
    ensures reply == Unrecognised <==> r == None
    ensures reply.Said? ==> r == Some(reply.choice == d)
  {
    match reply
    case Blank => Some(true)
    case Said(c) => Some(c == d)
    case Unrecognised => None
  }

  /** How a call ended: it returned `defaultChosen` after reading `read`
      lines; it raised ValueError before reading anything; or the input ran
      out after `read` lines and `input()` raised EOFError. */
  datatype Outcome = Answered(defaultChosen: bool, read: nat) | BadDefault | EndOfInput(read: nat)

  /** What each line, read in turn, would settle for a valid default. */
  function Decisions(d: Choice, lines: seq<string>): (ds: seq<Option<bool>>)
    ensures |ds| == |lines|
    ensures forall j :: 0 <= j < |lines| ==> ds[j] == Resolve(d, Reading(lines[j]))
  {
    seq(|lines|, j requires 0 <= j < |lines| => Resolve(d, Reading(lines[j])))
  }

  /** Reading from position `i` of the decisions on: the first decisive line
      ends the call, and running past the last line is end of input. */
  function FirstDecided(ds: seq<Option<bool>>, i: nat): (r: Outcome)
    requires i <= |ds|
    ensures r != BadDefault
    ensures r.Answered? ==> i < r.read <= |ds| && ds[r.read - 1] == Some(r.defaultChosen)
    ensures r.EndOfInput? ==> r.read == |ds|
    decreases |ds| - i
  {
    if i == |ds| then EndOfInput(i)
    else match ds[i]
      case Some(v) => Answered(v, i + 1)
      case None => FirstDecided(ds, i + 1)
  }

  /** `yesno(message, default)` answered from `lines`. */
  function Answer(default: string, lines: seq<string>): Outcome {
    match ParseDefault(default)
    case None => BadDefault
    case Some(d) => FirstDecided(Decisions(d, lines), 0)
  }

  /** How many times the prompt is shown: once per line read, and once more
      when the input runs out. */
  function Shown(o: Outcome): nat {
    match o
    case Answered(_, k) => k
    case BadDefault => 0
    case EndOfInput(k) => k + 1
  }

  /** Any default other than "yes" or "no" is refused before reading; a valid
      one never is. */
  lemma BadDefaultReadsNothing(default: string, lines: seq<string>)
    ensures Answer(default, lines) == BadDefault <==> default != "yes" && default != "no"
  {
  }

  /** No decision from `i` up to `k` is taken. */
  predicate Undecided(ds: seq<Option<bool>>, i: nat, k: nat)
    requires i <= k <= |ds|
  {
    forall j :: i <= j < k ==> ds[j] == None
  }

  lemma {:induction false} FirstDecidedIsFirst(ds: seq<Option<bool>>, i: nat, v: bool, k: nat)
    requires i <= |ds|
    ensures FirstDecided(ds, i) == Answered(v, k) <==>
      i < k <= |ds| && Undecided(ds, i, k - 1) && ds[k - 1] == Some(v)
    decreases |ds| - i
  {
    if i < |ds| && ds[i].None? {
      FirstDecidedIsFirst(ds, i + 1, v, k);
    }
  }

  lemma {:induction false} FirstDecidedRunsOut(ds: seq<Option<bool>>, i: nat, k: nat)
    requires i <= |ds|
    ensures FirstDecided(ds, i) == EndOfInput(k) <==> k == |ds| && Undecided(ds, i, |ds|)
    decreases |ds| - i
  {
    if i < |ds| && ds[i].None? {
      FirstDecidedRunsOut(ds, i + 1, k);
    }
  }

  /** yesno returns `v` after reading `k` lines exactly when line `k` is the
      first one that is blank or recognised, and it reads as `v`. */
  lemma AnswerIsFirstDecisive(default: string, lines: seq<string>, v: bool, k: nat)
    requires default == "yes" || default == "no"
    ensures var ds := Decisions(ParseDefault(default).value, lines);
      Answer(default, lines) == Answered(v, k) <==>
      1 <= k <= |lines| && Undecided(ds, 0, k - 1) && ds[k - 1] == Some(v)
  {
    FirstDecidedIsFirst(Decisions(ParseDefault(default).value, lines), 0, v, k);
  }

  /** With a valid default, yesno only fails for lack of input: when no line
      is blank or recognised, after reading them all. */
  lemma RunsOutIffNoneDecisive(default: string, lines: seq<string>, k: nat)
    requires default == "yes" || default == "no"
    ensures var ds := Decisions(ParseDefault(default).value, lines);
      Answer(default, lines) == EndOfInput(k) <==> k == |lines| && Undecided(ds, 0, |lines|)
  {
    FirstDecidedRunsOut(Decisions(ParseDefault(default).value, lines), 0, k);
  }

  lemma {:induction false} FirstDecidedPrefix(ds: seq<Option<bool>>, es: seq<Option<bool>>, i: nat, v: bool, k: nat)
    requires i <= k <= |ds| && k <= |es|
    requires forall j :: i <= j < k ==> es[j] == ds[j]
    requires FirstDecided(ds, i) == Answered(v, k)
    ensures FirstDecided(es, i) == Answered(v, k)
    decreases k - i
  {
    if ds[i].None? {
      FirstDecidedPrefix(ds, es, i + 1, v, k);
    }
  }

  /** Nothing after the deciding line is read: replacing everything after it
      leaves the outcome unchanged. */
  lemma AnswerIgnoresLaterLines(default: string, lines: seq<string>, more: seq<string>, v: bool, k: nat)
    requires Answer(default, lines) == Answered(v, k)
    ensures k <= |lines|
    ensures Answer(default, lines[..k] + more) == Answered(v, k)
  {
    var d := ParseDefault(default).value;
    var ls := lines[..k] + more;
    assert forall j :: 0 <= j < k ==> ls[j] == lines[j];
    var ds, es := Decisions(d, lines), Decisions(d, ls);
    FirstDecidedPrefix(ds, es, 0, v, k);
  }

  /** A first line that is empty or only whitespace chooses the default,
      whichever default it is. */
  lemma BlankLineChoosesDefault(default: string, line: string, rest: seq<string>)
    requires default == "yes" || default == "no"
    requires forall i :: 0 <= i < |line| ==> IsSpace(line[i])
    ensures Answer(default, [line] + rest) == Answered(true, 1)
  {
    StripEmptyIffAllSpace(line);
  }

  /** A yes (y/yes in any case) returns whether the default is "yes"; a no
      returns whether it is "no". */
  lemma SaidReturnsDefaultMatch(default: string, line: string, rest: seq<string>)
    requires default == "yes" || default == "no"
    ensures SaysYes(Strip(line)) ==> Answer(default, [line] + rest) == Answered(default == "yes", 1)
    ensures SaysNo(Strip(line)) ==> Answer(default, [line] + rest) == Answered(default == "no", 1)
  {
    YesAndNoDisjoint(Strip(line));
  }

  /** A line with no surrounding whitespace is classified as typed. */
  lemma ReadingUnpadded(line: string)
    requires line == [] || (!IsSpace(line[0]) && !IsSpace(line[|line| - 1]))
    ensures Reading(line) == Classify(line)
  {
    StripUnpadded(line);
  }

  /** With default "no", a "y" returns False: the operator did not take the
      default. */
  lemma YesAgainstDefaultNo()
    ensures Answer("no", ["y"]) == Answered(false, 1)
  {
    ReadingUnpadded("y");
    assert Decisions(No, ["y"])[0] == Some(false);
  }

  /** With default "no", an "n" returns True. */
  lemma NoWithDefaultNo()
    ensures Answer("no", ["n"]) == Answered(true, 1)
  {
    ReadingUnpadded("n");
    assert Decisions(No, ["n"])[0] == Some(true);
  }

  lemma ReadingOfMaybe()
    ensures Reading("maybe") == Unrecognised
  {
    ReadingUnpadded("maybe");
  }

  lemma ReadingOfUpperYes()
    ensures Reading("YES") == Said(Yes)
  {
    var s := "YES";
    assert MatchesIgnoreCase('y', s[0]) && MatchesIgnoreCase('e', s[1]) && MatchesIgnoreCase('s', s[2]);
    assert SaysYes(s);
    ReadingUnpadded(s);
  }

  /** An unrecognised line is skipped and the next one decides. */
  lemma UnrecognisedSkipped()
    ensures Answer("no", ["maybe", "YES"]) == Answered(false, 2)
  {
    ReadingOfMaybe();
    ReadingOfUpperYes();
    var ls := ["maybe", "YES"];
    var ds := Decisions(No, ls);
    assert ds[0] == Resolve(No, Reading(ls[0])) == None;
    assert ds[1] == Resolve(No, Reading(ls[1])) == Some(false);
  }

  /** The prompts a call shows: PromptText once per read, none when the
      default is refused. */
  function Prompts(message: string, default: string, suffix: string, lines: seq<string>): (ps: seq<string>)
    ensures |ps| == Shown(Answer(default, lines))
  {
    match ParseDefault(default)
    case None => []
    case Some(d) => seq(Shown(Answer(default, lines)), _ => PromptText(message, d, suffix))
  }

  /** A call with a valid default shows its prompt at least once: once
      for every line it reads, and once more when the input runs out. */
  lemma PromptsPerRead(message: string, default: string, suffix: string, lines: seq<string>)
    requires default == "yes" || default == "no"
    ensures var o := Answer(default, lines);
      var ps := Prompts(message, default, suffix, lines);
      |ps| >= 1
      && (o.Answered? ==> |ps| == o.read)
      && (o.EndOfInput? ==> |ps| == |lines| + 1)
      && forall j :: 0 <= j < |ps| ==> ps[j] == PromptText(message, ParseDefault(default).value, suffix)
  {
    BadDefaultReadsNothing(default, lines);
  }

  /** Every element of `shown` is `text`. */
  predicate Uniform(shown: seq<string>, text: string) {
    forall j :: 0 <= j < |shown| ==> shown[j] == text
  }

  /** Showing `text` once more keeps the prompts uniform. */
  lemma UniformAppend(shown: seq<string>, text: string)
    requires Uniform(shown, text)
    ensures Uniform(shown + [text], text)
  {
  }

  /** The reading loop of yesno for a valid default `d`: show `text`, read
      a line, and stop at the first blank or recognised one, or raise
      EOFError after one more prompt when the lines run out. */
  method Reprompt(d: Choice, text: string, lines: seq<string>) returns (outcome: Outcome, shown: seq<string>)
    ensures outcome == FirstDecided(Decisions(d, lines), 0)
    ensures |shown| == Shown(outcome) && Uniform(shown, text)
  {
    ghost var ds := Decisions(d, lines);
    var i := 0;
    shown := [];
    while i < |lines|
      invariant 0 <= i <= |lines|
      invariant FirstDecided(ds, i) == FirstDecided(ds, 0)
      invariant |shown| == i && Uniform(shown, text)
    {
      UniformAppend(shown, text);
      shown := shown + [text];
      var response := Strip(lines[i]);
      assert ds[i] == Resolve(d, Classify(response));
      i := i + 1;
      if response == "" {
        return Answered(true, i), shown;
      } else if SaysYes(response) {
        return Answered(d == Yes, i), shown;
      } else if SaysNo(response) {
        return Answered(d == No, i), shown;
      }
    }
    UniformAppend(shown, text);
    shown := shown + [text];
    outcome := EndOfInput(i);
  }

  /** yesno as the script runs it: check the default, then prompt and read
      until a line decides; the prompts it shows are Prompts. */
  method Yesno(message: string, default: string, suffix: string, lines: seq<string>)
    returns (outcome: Outcome, shown: seq<string>)
    ensures outcome == Answer(default, lines)
    ensures shown == Prompts(message, default, suffix, lines)
  {
    var d: Choice;
    if default == "yes" {
      d := Yes;
    } else if default == "no" {
      d := No;
    } else {
      return BadDefault, [];
    }
    outcome, shown := Reprompt(d, PromptText(message, d, suffix), lines);
  }
}
