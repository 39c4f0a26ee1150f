/** The gateway's client read loop (gateway.py `run`): bounded reads that act, line by line,
    as the plain newline split of the input would. */
module ClientLoop {
  import F = Framing

  datatype Action = RefuseOversized | Dispatch(line: string)

  // ----- the plain reading ----------------------------------------------------------

  /** Index of the first newline, or the length. */
  function LineEnd(t: string): (k: nat)
    ensures k <= |t|
    ensures forall i :: 0 <= i < k ==> t[i] != '\n'
    ensures k < |t| ==> t[k] == '\n'
  {
    if t == "" || t[0] == '\n' then 0 else 1 + LineEnd(t[1..])
  }

  /** The text after the first line and its newline. */
  function AfterLine(t: string): string {
    if LineEnd(t) == |t| then "" else t[LineEnd(t) + 1..]
  }

  /** `str.strip` for a given notion of white space. */
  function StripLeft(space: char -> bool, s: string): string {
    if s != "" && space(s[0]) then StripLeft(space, s[1..]) else s
  }

  function StripRight(space: char -> bool, s: string): string {
    if s != "" && space(s[|s| - 1]) then StripRight(space, s[..|s| - 1]) else s
  }

  function Strip(space: char -> bool, s: string): string { StripRight(space, StripLeft(space, s)) }

  /** What one line of this content calls for. */
  function LineActions(space: char -> bool, content: string): seq<Action> {
    if |content| > F.MAX_FRAME then [RefuseOversized]
    else if Strip(space, content) == "" then []
    else [Dispatch(Strip(space, content))]
  }

  predicate AllSpace(space: char -> bool, s: string) { forall k :: 0 <= k < |s| ==> space(s[k]) }

  lemma {:induction false} StripLeftIs(space: char -> bool, s: string) returns (n: nat)
    ensures n <= |s| && AllSpace(space, s[..n]) && StripLeft(space, s) == s[n..]
    ensures n < |s| ==> !space(s[n])
  {
    if s != "" && space(s[0]) {
      n := StripLeftIs(space, s[1..]);
      assert s[..n + 1] == [s[0]] + s[1..][..n] && s[n + 1..] == s[1..][n..];
      n := n + 1;
    } else {
      n := 0;
    }
  }

  lemma {:induction false} StripRightIs(space: char -> bool, s: string) returns (n: nat)
    ensures n <= |s| && AllSpace(space, s[n..]) && StripRight(space, s) == s[..n]
    ensures n > 0 ==> !space(s[n - 1])
  {
    if s != "" && space(s[|s| - 1]) {
      var t := s[..|s| - 1];
      n := StripRightIs(space, t);
      assert s[n..] == t[n..] + [s[|s| - 1]] && s[..n] == t[..n];
    } else {
      n := |s|;
    }
  }

  /** From its first character that is no space to its last. */
  ghost predicate StrippedAt(space: char -> bool, content: string, i: nat, j: nat) {
    && i <= j <= |content| && AllSpace(space, content[..i]) && AllSpace(space, content[j..])
    && (i < j ==> !space(content[i]) && !space(content[j - 1]))
  }

  /** A line over 8388608 characters is refused; of any other what is left without the spaces
      at both ends is dispatched, if anything is. */
  lemma LineByContent(space: char -> bool, content: string) returns (i: nat, j: nat)
    ensures StrippedAt(space, content, i, j)
    ensures LineActions(space, content)
         == if |content| > 8_388_608 then [RefuseOversized]
            else if i == j then []
            else [Dispatch(content[i..j])]
  {
    hide StripLeft, StripRight, AllSpace;
    i := StripLeftIs(space, content);
    var left := content[i..];
    var n := StripRightIs(space, left);
    j := i + n;
    assert content[j..] == left[n..] && content[i..j] == left[..n];
    if n > 0 { assert left[0] == content[i] && left[n - 1] == content[j - 1]; }
  }

  /** The newline split of the whole text, each line acted on in turn. */
  function Reading(space: char -> bool, t: string): seq<Action>
    decreases |t|
  {
    if t == "" then [] else LineActions(space, t[..LineEnd(t)]) + Reading(space, AfterLine(t))
  }

  // ----- the bounded reads ----------------------------------------------------------

  /** How much `readline(n)` returns: through the newline, but never more than `n`. */
  function ReadSize(t: string, n: nat): (k: nat)
    ensures k <= |t| && k <= n
  {
    var through := if LineEnd(t) < |t| then LineEnd(t) + 1 else |t|;
    if through < n then through else n
  }

  predicate EndsLine(s: string) { s != "" && s[|s| - 1] == '\n' }

  lemma {:induction false} LineEndIs(t: string, k: nat)
    requires k <= |t| && (forall i :: 0 <= i < k ==> t[i] != '\n') && (k < |t| ==> t[k] == '\n')
    ensures LineEnd(t) == k
  {
    hide LineEnd;
    var m := LineEnd(t);
  }

  lemma SkippedPrefix(t: string, k: nat)
    requires k <= LineEnd(t)
    ensures LineEnd(t[k..]) == LineEnd(t) - k && AfterLine(t[k..]) == AfterLine(t)
  {
    hide LineEnd;
    LineEndIs(t[k..], LineEnd(t) - k);
  }

  /** Stripping the line with its newline is stripping its content. */
  lemma {:induction false} StripNewline(space: char -> bool, s: string)
    requires space('\n')
    ensures Strip(space, s + "\n") == Strip(space, s)
  {
    if s == "" {
      assert (s + "\n")[1..] == "";
      assert StripLeft(space, s + "\n") == StripLeft(space, "");
    } else if space(s[0]) {
      assert (s + "\n")[1..] == s[1..] + "\n";
      StripNewline(space, s[1..]);
    } else {
      assert (s + "\n")[..|s|] == s;
    }
  }

  class Client {
    var input: string
    var actions: seq<Action>
    const space: char -> bool

    constructor (space: char -> bool, text: string)
      ensures input == text && actions == [] && this.space == space
    {
      this.space := space;
      input, actions := text, [];
    }

    /** `self._in.readline(n)` on the text still to come. */
    method ReadLine(n: nat) returns (line: string)
      modifies this`input
      ensures line == old(input)[..ReadSize(old(input), n)]
      ensures input == old(input)[ReadSize(old(input), n)..]
    {
      var k := ReadSize(input, n);
      line := input[..k];
      input := input[k..];
    }

    /** Reads and discards, in bounded chunks, to the end of the current line. */
    method Drain()
      modifies this`input
      ensures input == AfterLine(old(input))
    {
      while true
        invariant AfterLine(input) == AfterLine(old(input))
        decreases |input|
      {
        ghost var t := input;
        var rest := ReadLine(F.MAX_FRAME);
        if rest == "" || EndsLine(rest) {
          DrainStops(t);
          break;
        }
        DrainGoesOn(t);
      }
    }

    /** One turn of the session loop: the next line read, and what it comes to, if anything. */
    method Turn() returns (more: bool, now: seq<Action>)
      requires space('\n')
      modifies this`input
      ensures Reading(space, old(input)) == now + Reading(space, input)
      ensures |now| <= 1 && (more <==> |input| < |old(input)|)
      ensures !more ==> input == "" && now == []
    {
      hide LineEnd, Strip, Reading, LineActions, ReadSize, AfterLine;
      ghost var t := input;
      assert t[0..] == t;
      var line := ReadLine(F.MAX_FRAME + 1);
      if line == "" {
        NothingLeft(space, t);
        return false, [];
      }
      LineStep(space, t);
      if |line| > F.MAX_FRAME && !EndsLine(line) {
        SkippedPrefix(t, F.MAX_FRAME + 1);
        Drain();
        return true, [RefuseOversized];
      }
      var stripped := Strip(space, line);
      return true, if stripped == "" then [] else [Dispatch(stripped)];
    }

    /** The session loop: every line refused or dispatched exactly as the plain split says. */
    method Run()
      requires space('\n')
      modifies this
      ensures input == ""
      ensures actions == old(actions) + Reading(space, old(input))
    {
      hide Reading;
      ghost var done: seq<Action> := [];
      var more := true;
      while more
        invariant actions == old(actions) + done
        invariant done + Reading(space, input) == Reading(space, old(input))
        invariant !more ==> input == "" && Reading(space, input) == []
        decreases more, |input|
      {
        ghost var t := input;
        var now;
        more, now := Turn();
        actions := actions + now;
        assert (done + now) + Reading(space, input) == done + (now + Reading(space, input));
        done := done + now;
        NothingRead(space);
      }
    }
  }

  lemma NothingRead(space: char -> bool)
    ensures Reading(space, "") == []
  {
  }

  lemma DrainStops(t: string)
    requires var rest := t[..ReadSize(t, F.MAX_FRAME)]; rest == "" || EndsLine(rest)
    ensures t[ReadSize(t, F.MAX_FRAME)..] == AfterLine(t)
  {
    hide LineEnd;
    var k := ReadSize(t, F.MAX_FRAME);
    if t[..k] != "" { assert t[..k][k - 1] == t[k - 1]; }
  }

  lemma DrainGoesOn(t: string)
    requires var rest := t[..ReadSize(t, F.MAX_FRAME)]; rest != "" && !EndsLine(rest)
    ensures AfterLine(t[ReadSize(t, F.MAX_FRAME)..]) == AfterLine(t)
    ensures ReadSize(t, F.MAX_FRAME) > 0
  {
    hide LineEnd;
    var k := ReadSize(t, F.MAX_FRAME);
    assert t[..k][k - 1] == t[k - 1];
    SkippedPrefix(t, k);
  }

  lemma NothingLeft(space: char -> bool, t: string)
    requires t[..ReadSize(t, F.MAX_FRAME + 1)] == ""
    ensures t == "" && Reading(space, t) == []
  {
    hide LineEnd;
  }

  /** A read stops early exactly when the line's content exceeds the cap. */
  lemma ReadShape(t: string)
    requires t != ""
    ensures var k := ReadSize(t, F.MAX_FRAME + 1);
            if LineEnd(t) > F.MAX_FRAME then k == F.MAX_FRAME + 1 && !EndsLine(t[..k])
            else k > 0 && t[k..] == AfterLine(t) && (|t[..k]| > F.MAX_FRAME ==> EndsLine(t[..k]))
                 && (t[..k] == t[..LineEnd(t)] + "\n" || t[..k] == t[..LineEnd(t)])
  {
    hide LineEnd;
    var k := ReadSize(t, F.MAX_FRAME + 1);
    assert t[..k][k - 1] == t[k - 1];
  }

  lemma AfterLineShorter(t: string)
    requires t != ""
    ensures |AfterLine(t)| < |t|
  {
    hide LineEnd;
  }

  /** The first read decides between the two ways a line can go. */
  lemma LineStep(space: char -> bool, t: string)
    requires space('\n') && t != ""
    ensures var k := ReadSize(t, F.MAX_FRAME + 1);
            var content := t[..LineEnd(t)];
            if |t[..k]| > F.MAX_FRAME && !EndsLine(t[..k])
            then k == F.MAX_FRAME + 1 <= LineEnd(t) && LineActions(space, content) == [RefuseOversized]
            else t[k..] == AfterLine(t)
                 && LineActions(space, content) == if Strip(space, t[..k]) == "" then []
                     else [Dispatch(Strip(space, t[..k]))]
    ensures Reading(space, t) == LineActions(space, t[..LineEnd(t)]) + Reading(space, AfterLine(t))
    ensures |AfterLine(t)| < |t|
  {
    hide LineEnd, Strip, ReadSize, AfterLine, EndsLine;
    ReadShape(t);
    AfterLineShorter(t);
    StripNewline(space, t[..LineEnd(t)]);
  }
}
