/**
  * The heuristic transcript parser inside `processImport` (App.tsx): pasted text
  * is split into lines, blank lines are dropped, and every other line becomes one
  * message whose sender is guessed from a `me:`/`myself:`/`<name>:` prefix.
  */
module Transcript {
  import opened Types
  import opened JsStrings

  /** Sender and text recovered from one transcript line. */
  datatype Attribution = Attribution(sender: Sender, text: string)

  /** The line starts, ignoring case, with `me:` or `myself:`. */
  predicate IsSelfPrefixed(line: string)
  {
    var lower := ToLower(line);
    StartsWith(lower, "me:") || StartsWith(lower, "myself:")
  }

  /** The line starts, ignoring case, with the contact's name and a colon. */
  predicate IsNamePrefixed(name: string, line: string)
  {
    StartsWith(ToLower(line), ToLower(name) + ":")
  }

  /** `line.substring(line.indexOf(':') + 1)`. */
  function AfterFirstColon(line: string): string
  {
    SubstringFrom(line, IndexOf(line, ':') + 1)
  }

  /** How one non-blank line is attributed; the self test comes before the name test. */
  function ClassifyLine(name: string, line: string): Attribution
  {
    if IsSelfPrefixed(line) then Attribution(ME, Trim(AfterFirstColon(line)))
    else if IsNamePrefixed(name, line) then Attribution(THEM, Trim(AfterFirstColon(line)))
    else Attribution(THEM, line)
  }

  /**
    * A line is the user's exactly when it carries the self prefix; its text is
    * then everything after its first colon, which is the colon of the prefix,
    * trimmed.
    */
  lemma {:induction false} SelfLineText(name: string, line: string)
    ensures ClassifyLine(name, line).sender == ME <==> IsSelfPrefixed(line)
    ensures IsSelfPrefixed(line) ==>
      var colon := if StartsWith(ToLower(line), "me:") then 2 else 6;
      && colon < |line| && line[colon] == ':' && ':' !in line[..colon]
      && ClassifyLine(name, line).text == Trim(line[colon + 1..])
  {
    if IsSelfPrefixed(line) {
      var lower := ToLower(line);
      var colon := if StartsWith(lower, "me:") then 2 else 6;
      var prefix := if colon == 2 then "me:" else "myself:";
      ToLowerKeepsColons(line);
      assert lower[..colon + 1] == prefix;
      assert forall i :: 0 <= i < colon ==> lower[i] == prefix[i] != ':';
      assert line[colon] == ':';
      assert ':' !in line[..colon];
      assert IndexOf(line, ':') == colon;
    }
  }

  /**
    * A line that is not the user's but carries the name prefix is the contact's,
    * with the text after its first colon trimmed. When the name has no colon of
    * its own, that colon is the one right after the name.
    */
  lemma {:induction false} NameLineText(name: string, line: string)
    requires !IsSelfPrefixed(line) && IsNamePrefixed(name, line)
    ensures ClassifyLine(name, line).sender == THEM
    ensures ':' !in name ==> ClassifyLine(name, line).text == Trim(line[|name| + 1..])
  {
    if ':' !in name {
      var lower := ToLower(line);
      ToLowerKeepsColons(line);
      ToLowerKeepsColons(name);
      assert lower[..|name| + 1] == ToLower(name) + ":";
      assert forall i :: 0 <= i < |name| ==> lower[i] == ToLower(name)[i] != ':';
      assert line[|name|] == ':';
      assert ':' !in line[..|name|];
      assert IndexOf(line, ':') == |name|;
    }
  }

  /** A line with neither prefix is the contact's and is kept verbatim, untrimmed. */
  lemma UnprefixedLineIsVerbatim(name: string, line: string)
    requires !IsSelfPrefixed(line) && !IsNamePrefixed(name, line)
    ensures ClassifyLine(name, line) == Attribution(THEM, line)
  {
  }

  /** A bare `Me:` line yields a message of the user's with empty text. */
  lemma BareSelfPrefixGivesEmptyText(name: string)
    ensures ClassifyLine(name, "Me:") == Attribution(ME, "")
  {
    assert ToLower("Me:")[..3] == "me:";
    assert IndexOf("Me:", ':') == 2;
  }

  /** `imported-${Date.now()}-${index}`. */
  function ImportedMessageId(stamp: nat, index: nat): string
  {
    "imported-" + NatToString(stamp) + "-" + NatToString(index)
  }

  /**
    * The clock reading and the line position can both be read back from an id:
    * the rendered reading holds no `-`, so the first `-` after `imported-` ends it.
    */
  lemma ImportedMessageIdInjective(t1: nat, i: nat, t2: nat, j: nat)
    requires ImportedMessageId(t1, i) == ImportedMessageId(t2, j)
    ensures t1 == t2 && i == j
  {
    var a1, b1 := NatToString(t1), NatToString(i);
    var a2, b2 := NatToString(t2), NatToString(j);
    var s1, s2 := a1 + ['-'] + b1, a2 + ['-'] + b2;
    assert ImportedMessageId(t1, i) == "imported-" + s1;
    assert ImportedMessageId(t2, j) == "imported-" + s2;
    PrefixCancel("imported-", s1, s2);
    assert '-' !in a1 && '-' !in a2;
    IndexOfAfterPrefix(a1, b1, '-');
    IndexOfAfterPrefix(a2, b2, '-');
    assert a1 == s1[..|a1|] && a2 == s2[..|a2|];
    assert b1 == s1[|a1| + 1..] && b2 == s2[|a2| + 1..];
    NatToStringInjective(t1, t2);
    NatToStringInjective(i, j);
  }

  /** The message a non-blank line at `index` becomes. */
  function LineMessage(name: string, line: string, index: nat, stamp: nat, now: string): Message
  {
    var a := ClassifyLine(name, line);
    Message(ImportedMessageId(stamp, index), a.sender, a.text, now)
  }

  /** The message for the line at `index`, if it is not blank. */
  function LineMessages(name: string, line: string, index: nat, stamp: nat, now: string): seq<Message>
  {
    if IsBlank(line) then [] else [LineMessage(name, line, index, stamp, now)]
  }

  /**
    * The messages the parser produces for `lines`, read in order. The clock is
    * read anew for every line: `stampAt(i)` and `nowAt(i)` are the `Date.now()`
    * and `new Date().toISOString()` readings taken while line `i` is handled.
    */
  function Parsed(name: string, lines: seq<string>, stampAt: nat -> nat, nowAt: nat -> string): seq<Message>
  {
    if lines == [] then []
    else
      var last := |lines| - 1;
      Parsed(name, lines[..last], stampAt, nowAt) + LineMessages(name, lines[last], last, stampAt(last), nowAt(last))
  }

  /** The positions of the non-blank lines, in increasing order. */
  function NonBlankIndices(lines: seq<string>): (r: seq<nat>)
    ensures forall k :: 0 <= k < |r| ==> r[k] < |lines|
  {
    if lines == [] then []
    else
      var last := |lines| - 1;
      var rest := NonBlankIndices(lines[..last]);
      if IsBlank(lines[last]) then rest else rest + [last]
  }

  /**
    * Every position `NonBlankIndices` lists holds a non-blank line, the positions
    * increase, and every non-blank line is listed.
    */
  lemma {:induction false} NonBlankIndicesSpec(lines: seq<string>)
    ensures var r := NonBlankIndices(lines);
      && (forall k :: 0 <= k < |r| ==> !IsBlank(lines[r[k]]))
      && (forall k, l :: 0 <= k < l < |r| ==> r[k] < r[l])
      && (forall j :: 0 <= j < |lines| && !IsBlank(lines[j]) ==> j in r)
  {
    if lines != [] {
      var last := |lines| - 1;
      var init := lines[..last];
      NonBlankIndicesSpec(init);
      assert forall j :: 0 <= j < last ==> lines[j] == init[j];
    }
  }

  /**
    * Each non-blank line produces exactly one message and blank lines none, so the
    * k-th message comes from the k-th non-blank line, is attributed as that line
    * classifies, and carries that line's position in its id.
    */
  lemma {:induction false} ParsedFollowsNonBlankLines(name: string, lines: seq<string>, stampAt: nat -> nat, nowAt: nat -> string)
    ensures var ms := Parsed(name, lines, stampAt, nowAt);
      var idx := NonBlankIndices(lines);
      && |ms| == |idx|
      && forall k :: 0 <= k < |ms| ==>
           ms[k] == LineMessage(name, lines[idx[k]], idx[k], stampAt(idx[k]), nowAt(idx[k]))
  {
    if lines != [] {
      var last := |lines| - 1;
      var init := lines[..last];
      ParsedFollowsNonBlankLines(name, init, stampAt, nowAt);
      var ms0, idx0 := Parsed(name, init, stampAt, nowAt), NonBlankIndices(init);
      var ms, idx := Parsed(name, lines, stampAt, nowAt), NonBlankIndices(lines);
      var tail := LineMessages(name, lines[last], last, stampAt(last), nowAt(last));
      assert ms == ms0 + tail;
      assert idx == if tail == [] then idx0 else idx0 + [last];
      forall k | 0 <= k < |ms|
        ensures ms[k] == LineMessage(name, lines[idx[k]], idx[k], stampAt(idx[k]), nowAt(idx[k]))
      {
        if k < |ms0| {
          assert ms[k] == ms0[k] && idx[k] == idx0[k];
          assert lines[idx0[k]] == init[idx0[k]];
        } else {
          assert ms[k] == tail[0] && idx[k] == last;
        }
      }
    }
  }

  /**
    * Within one import the ids of the produced messages are pairwise distinct,
    * whatever the clock reads for each line.
    */
  lemma ParsedIdsDistinct(name: string, lines: seq<string>, stampAt: nat -> nat, nowAt: nat -> string)
    ensures var ms := Parsed(name, lines, stampAt, nowAt);
      forall k, l :: 0 <= k < l < |ms| ==> ms[k].id != ms[l].id
  {
    var ms := Parsed(name, lines, stampAt, nowAt);
    var idx := NonBlankIndices(lines);
    ParsedFollowsNonBlankLines(name, lines, stampAt, nowAt);
    NonBlankIndicesSpec(lines);
    forall k, l | 0 <= k < l < |ms|
      ensures ms[k].id != ms[l].id
    {
      if ms[k].id == ms[l].id {
        ImportedMessageIdInjective(stampAt(idx[k]), idx[k], stampAt(idx[l]), idx[l]);
      }
    }
  }

  /** Parsing one more line appends what that line alone produces. */
  lemma ParsedStep(name: string, lines: seq<string>, index: nat, stampAt: nat -> nat, nowAt: nat -> string)
    requires index < |lines|
    ensures Parsed(name, lines[..index + 1], stampAt, nowAt)
         == Parsed(name, lines[..index], stampAt, nowAt)
            + LineMessages(name, lines[index], index, stampAt(index), nowAt(index))
  {
    assert lines[..index + 1][..index] == lines[..index];
  }

  /**
    * The `forEach` over the lines of the pasted text: a blank line is skipped, any
    * other is attributed by the prefix heuristics and appended.
    */
  method ParseTranscript(name: string, text: string, stampAt: nat -> nat, nowAt: nat -> string)
    returns (parsed: seq<Message>)
    ensures parsed == Parsed(name, Split(text, '\n'), stampAt, nowAt)
  {
    var lines := Split(text, '\n');
    parsed := [];
    var index := 0;
    while index < |lines|
      invariant 0 <= index <= |lines|
      invariant parsed == Parsed(name, lines[..index], stampAt, nowAt)
    {
      var line := lines[index];
      ParsedStep(name, lines, index, stampAt, nowAt);
      if !IsBlank(line) {
        var sender := THEM;
        var body := line;
        var lower := ToLower(line);
        if StartsWith(lower, "me:") || StartsWith(lower, "myself:") {
          sender := ME;
          body := Trim(SubstringFrom(line, IndexOf(line, ':') + 1));
          assert IsSelfPrefixed(line);
        } else if StartsWith(lower, ToLower(name) + ":") {
          sender := THEM;
          body := Trim(SubstringFrom(line, IndexOf(line, ':') + 1));
          assert !IsSelfPrefixed(line) && IsNamePrefixed(name, line);
        } else {
          sender := THEM;
          assert !IsSelfPrefixed(line) && !IsNamePrefixed(name, line);
        }
        assert Attribution(sender, body) == ClassifyLine(name, line);
        parsed := parsed + [Message(ImportedMessageId(stampAt(index), index), sender, body, nowAt(index))];
      }
      index := index + 1;
    }
    assert lines[..index] == lines;
  }
}
