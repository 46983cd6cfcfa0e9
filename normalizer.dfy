/** The log-line normaliser of `renderLogLineToString`: hclog has already rendered the line;
    the loop strips every `{anything} [LEVEL]` prefix and a leading case-insensitive `plugin:` tag,
    leaving only the message. The level token is the upper-cased name of the level the line was
    logged at.

    `Normalize` is the loop as evidently intended and is what the rest of the model uses;
    `NormalizeAsWritten` is the loop as written, whose two slice expressions can go out of range. */
module Normalizer {
  import opened GoTypes
  import opened Text

  const PluginTag: string := "plugin:"

  /** What one level-stripping step leaves, and whether it stripped anything. */
  datatype Stripped = Stripped(rest: string, found: bool)

  /** One level-stripping step, with the bounds check the slice needs: drop everything up to and
      including the first occurrence of the token and one more character, then trim. */
  function StripLevel(s: string, token: string): (r: Stripped)
    ensures r.found ==> |r.rest| + |token| + 1 <= |s|
    ensures !r.found ==> r.rest == s
  {
    var pos := Index(s, token);
    if pos != -1 && pos + 1 < |s| && pos + |token| + 1 <= |s| then
      Stripped(TrimSpace(s[pos + |token| + 1..]), true)
    else
      Stripped(s, false)
  }

  /** The line starts with `plugin:` in any letter case. */
  predicate HasPluginTag(s: string) {
    |s| >= |PluginTag| && ToLower(s[..|PluginTag|]) == PluginTag
  }

  /** Drop a leading case-insensitive `plugin:` tag and trim; any other line is left alone. */
  function DropPluginTag(s: string): (r: string)
    ensures !HasPluginTag(s) ==> r == s
    ensures HasPluginTag(s) ==> |r| + |PluginTag| <= |s|
  {
    if HasPluginTag(s) then TrimSpace(s[|PluginTag|..]) else s
  }

  /** The normalised line: iterate strip-level-then-drop-tag while a level prefix was stripped.
      The loop stops when the text is shorter than the token or when no prefix was stripped. */
  function Normalize(s: string, token: string): (r: string)
    ensures |r| <= |s|
    decreases |s|
  {
    if |s| < |token| then s
    else
      var step := StripLevel(s, token);
      var next := DropPluginTag(step.rest);
      if step.found then Normalize(next, token) else next
  }

  /** One turn of the loop, for a line no shorter than the token. */
  lemma NormalizeUnfold(s: string, token: string)
    requires |s| >= |token|
    ensures var pos := Index(s, token);
            var found := pos != -1 && pos + 1 < |s| && pos + |token| + 1 <= |s|;
            var rest := if found then TrimSpace(s[pos + |token| + 1..]) else s;
            var next := if |rest| >= |PluginTag| && ToLower(rest[..|PluginTag|]) == PluginTag
                        then TrimSpace(rest[|PluginTag|..]) else rest;
            Normalize(s, token) == if found then Normalize(next, token) else next
  {
  }

  /** The loop of `renderLogLineToString`, the rendering done: `logStr` is rewritten step by step
      until no level prefix is left to strip. */
  method RenderLogLineToString(rendered: string, levelStr: string) returns (logStr: string)
    ensures logStr == Normalize(rendered, levelStr)
  {
    logStr := rendered;
    while true
      invariant Normalize(logStr, levelStr) == Normalize(rendered, levelStr)
      decreases |logStr|
    {
      var foundLevel := false;
      if |logStr| < |levelStr| {
        break;
      }
      ghost var before := logStr;
      NormalizeUnfold(before, levelStr);

      var pos := Index(logStr, levelStr);
      if pos != -1 && pos + 1 < |logStr| && pos + |levelStr| + 1 <= |logStr| {
        logStr := TrimSpace(logStr[pos + |levelStr| + 1..]);
        foundLevel := true;
      }

      if |logStr| >= |PluginTag| && ToLower(logStr[..|PluginTag|]) == PluginTag {
        logStr := logStr[|PluginTag|..];
        logStr := TrimSpace(logStr);
      }

      if !foundLevel {
        break;
      }
    }
  }

  /** The loop exactly as written: `logStr[:7]` is taken before the length check guarding it, and
      the level slice `logStr[pos+len(levelStr)+1:]` is guarded only by `pos+1 < len(logStr)`. */
  function NormalizeAsWritten(s: string, token: string): (r: Outcome<string>)
    decreases |s|
  {
    if |s| < |token| then Returned(s)
    else
      var pos := Index(s, token);
      var found := pos != -1 && pos + 1 < |s|;
      if found && pos + |token| + 1 > |s| then
        Panicked(SliceOutOfRange(pos + |token| + 1, |s|, |s|))
      else
        var afterLevel := if found then TrimSpace(s[pos + |token| + 1..]) else s;
        if |afterLevel| < |PluginTag| then
          Panicked(SliceOutOfRange(0, |PluginTag|, |afterLevel|))
        else
          var next :=
            if ToLower(afterLevel[..|PluginTag|]) == PluginTag then TrimSpace(afterLevel[|PluginTag|..])
            else afterLevel;
          if found then NormalizeAsWritten(next, token) else Returned(next)
  }

  /** Wherever the loop as written does not panic, it computes exactly the normalised line. */
  lemma {:induction false} AsWrittenAgreesWhenNoPanic(s: string, token: string)
    ensures NormalizeAsWritten(s, token).Returned? ==> NormalizeAsWritten(s, token).value == Normalize(s, token)
    decreases |s|
  {
    if |s| >= |token| && NormalizeAsWritten(s, token).Returned? {
      var step := StripLevel(s, token);
      var next := DropPluginTag(step.rest);
      if step.found {
        AsWrittenAgreesWhenNoPanic(next, token);
      }
    }
  }

  /** The normalised line is always a contiguous piece of the rendered line. */
  lemma {:induction false} NormalizeIsSlice(s: string, token: string)
    ensures IsSlice(Normalize(s, token), s)
    decreases |s|
  {
    SliceOfSelf(s);
    if |s| >= |token| {
      var step := StripLevel(s, token);
      var next := DropPluginTag(step.rest);
      assert IsSlice(step.rest, s) by {
        if step.found {
          var pos := Index(s, token);
          SuffixIsSlice(s, pos + |token| + 1);
          TrimSpaceIsSlice(s[pos + |token| + 1..]);
          SliceTransitive(step.rest, s[pos + |token| + 1..], s);
        }
      }
      assert IsSlice(next, step.rest) by {
        SliceOfSelf(step.rest);
        if HasPluginTag(step.rest) {
          SuffixIsSlice(step.rest, |PluginTag|);
          TrimSpaceIsSlice(step.rest[|PluginTag|..]);
          SliceTransitive(next, step.rest[|PluginTag|..], step.rest);
        }
      }
      SliceTransitive(next, step.rest, s);
      if step.found {
        NormalizeIsSlice(next, token);
        SliceTransitive(Normalize(next, token), next, s);
      }
    }
  }

  /** A line with no level token and no leading `plugin:` tag comes back unchanged. */
  lemma CleanLineUnchanged(s: string, token: string)
    requires Index(s, token) == -1 && !HasPluginTag(s)
    ensures Normalize(s, token) == s
  {
  }

  /** As written, the same holds only for lines of at least seven characters. */
  lemma CleanLineUnchangedAsWritten(s: string, token: string)
    requires |s| >= |PluginTag| && Index(s, token) == -1 && !HasPluginTag(s)
    ensures NormalizeAsWritten(s, token) == Returned(s)
  {
  }

  /** What hclog puts between the timestamp and the message: ` [LEVEL] plugin: `. */
  function LevelSeparator(token: string): string {
    " [" + token + "] plugin: "
  }

  /** In `{timestamp} [LEVEL`, the bracketed token is the first occurrence of the token: it occurs
      nowhere earlier, not even across the ` [` that follows the timestamp. */
  predicate BracketedTokenFirst(ts: string, token: string) {
    Index(ts + " [" + token, token) == |ts| + 2
  }

  /** When the first occurrence of the token in `a + token` is the one at its end, the level step
      on `a + token + tail` drops `a`, the token and the first character of `tail`, then trims. */
  lemma StripLevelAt(a: string, token: string, tail: string)
    requires token != [] && Index(a + token, token) == |a| && tail != []
    ensures StripLevel(a + token + tail, token) == Stripped(TrimSpace(tail[1..]), true)
  {
    var s := a + token + tail;
    IndexExtend(a + token, token, tail);
    assert s[|a| + |token| + 1..] == tail[1..];
  }

  /** A single leading space, then a piece that neither starts nor ends with white space: trimming
      leaves the piece. */
  lemma TrimAfterSpace(t: string)
    requires t == [] || (!IsSpace(t[0]) && !IsSpace(t[|t| - 1]))
    ensures TrimSpace(" " + t) == t
  {
    TrimSpaceSkipsLeadingSpace(' ', t);
    TrimSpaceOfTrimmed(t);
  }

  /** The level step on `{timestamp} [LEVEL] msg` leaves `msg`, when `msg` is already trimmed. */
  lemma StripLevelBeforeMessage(ts: string, token: string, msg: string)
    requires token != [] && BracketedTokenFirst(ts, token)
    requires msg == [] || (!IsSpace(msg[0]) && !IsSpace(msg[|msg| - 1]))
    ensures StripLevel(ts + " [" + token + "] " + msg, token) == Stripped(msg, true)
  {
    var a := ts + " [";
    var tail := "] " + msg;
    assert ts + " [" + token + "] " + msg == a + token + tail;
    assert StripLevel(a + token + tail, token) == Stripped(TrimSpace(tail[1..]), true) by {
      StripLevelAt(a, token, tail);
    }
    assert TrimSpace(tail[1..]) == msg by {
      assert tail[1..] == " " + msg;
      TrimAfterSpace(msg);
    }
  }

  lemma LevelSeparatorSplit(ts: string, token: string, rest: string)
    ensures ts + LevelSeparator(token) + rest == ts + " [" + token + "] " + ("plugin: " + rest)
  {
    assert LevelSeparator(token) == " [" + token + "] " + "plugin: ";
  }

  /** The level step on `{timestamp} [LEVEL] plugin: rest` leaves `plugin: rest`. */
  lemma StripLevelOnPrefix(ts: string, token: string, rest: string)
    requires token != [] && BracketedTokenFirst(ts, token)
    requires rest != [] && !IsSpace(rest[|rest| - 1])
    ensures StripLevel(ts + LevelSeparator(token) + rest, token) == Stripped("plugin: " + rest, true)
  {
    var tagged := "plugin: " + rest;
    LevelSeparatorSplit(ts, token, rest);
    assert tagged[0] == 'p' && tagged[|tagged| - 1] == rest[|rest| - 1];
    StripLevelBeforeMessage(ts, token, tagged);
  }

  /** The tag step on `plugin: rest` leaves `rest`. */
  lemma DropPluginTagOnTagged(rest: string)
    requires rest != [] && !IsSpace(rest[0]) && !IsSpace(rest[|rest| - 1])
    ensures HasPluginTag("plugin: " + rest)
    ensures DropPluginTag("plugin: " + rest) == rest
  {
    var tagged := "plugin: " + rest;
    assert tagged[..|PluginTag|] == PluginTag;
    assert tagged[|PluginTag|..] == [' '] + rest;
    TrimSpaceSkipsLeadingSpace(' ', rest);
    TrimSpaceOfTrimmed(rest);
  }

  /** One `{timestamp} [LEVEL] plugin: ` prefix is stripped, and normalisation goes on with the rest. */
  lemma StripsOnePrefix(ts: string, token: string, rest: string)
    requires token != [] && BracketedTokenFirst(ts, token)
    requires rest != [] && !IsSpace(rest[0]) && !IsSpace(rest[|rest| - 1])
    ensures Normalize(ts + LevelSeparator(token) + rest, token) == Normalize(rest, token)
  {
    StripLevelOnPrefix(ts, token, rest);
    DropPluginTagOnTagged(rest);
  }

  /** The doubled prefix that relaying through two formatting layers produces is stripped twice,
      leaving the message, provided the message itself is clean. */
  lemma DoubledPrefixStripped(ts: string, token: string, msg: string)
    requires token != [] && BracketedTokenFirst(ts, token)
    requires ts != [] && !IsSpace(ts[0])
    requires msg != [] && !IsSpace(msg[0]) && !IsSpace(msg[|msg| - 1])
    requires Index(msg, token) == -1 && !HasPluginTag(msg)
    ensures Normalize(ts + LevelSeparator(token) + ts + LevelSeparator(token) + msg, token) == msg
  {
    var once := ts + LevelSeparator(token) + msg;
    assert once[0] == ts[0] && once[|once| - 1] == msg[|msg| - 1];
    assert ts + LevelSeparator(token) + ts + LevelSeparator(token) + msg == ts + LevelSeparator(token) + once;
    StripsOnePrefix(ts, token, once);
    StripsOnePrefix(ts, token, msg);
    CleanLineUnchanged(msg, token);
  }

  /* The lemmas about concrete lines below take the level token (and the message) as parameters
     that their requires pin to one value: the proofs then refer to the token by name and only
     look at its characters where a step needs them. */

  /** The timestamp of the example line. */
  const ExampleTimestamp := "2023-11-15T10:54:22.783+0800"

  /** The plugin's own message in the example line (split only to keep the proofs about it small). */
  const ExampleMessage := "plugin address: network=unix " + "address=/var/folders/xz/"
                          + "_vsfj__d63qc1x2n3lg6646m0000gn" + "/T/plugin2160303011"

  /** The DEBUG token is first found in the example line right after ` [`. */
  lemma ExampleTimestampBracketed(token: string)
    requires token == "DEBUG"
    ensures BracketedTokenFirst(ExampleTimestamp, token)
  {
    var a := ExampleTimestamp + " [";
    assert token[0] !in a;
    IndexAfterPrefix(a, token, []);
    assert a + token + [] == ExampleTimestamp + " [" + token;
  }

  /** The TRACE token is first found right after ` [` too, although the timestamp holds a `T`. */
  lemma TraceTimestampBracketed(token: string)
    requires token == "TRACE"
    ensures BracketedTokenFirst(ExampleTimestamp, token)
  {
    var date := "2023-11-15";
    var time := "10:54:22.783+0800 [";
    var a := ExampleTimestamp + " [";
    var s := a + token;
    assert a == date + "T" + time;
    IndexSpec(s, token);
    assert s[|a|..] == token;
    assert OccursAt(s, token, |a|);
    forall k | 0 <= k < |a| ensures !OccursAt(s, token, k) {
      if k + |token| <= |s| {
        assert s[k..k + |token|][0] == s[k] && s[k..k + |token|][1] == s[k + 1];
        if k < |date| {
          assert s[k] == date[k] && 'T' !in date;
        } else if k == |date| {
          assert s[k + 1] == '1';
        } else {
          assert s[k] == time[k - |date| - 1] && 'T' !in time;
        }
      }
    }
  }

  lemma ExampleMessageHasNoToken(token: string)
    requires token == "DEBUG"
    ensures Index(ExampleMessage, token) == -1
  {
    assert token[0] !in ExampleMessage by {
      assert token[0] !in "plugin address: network=unix ";
      assert token[0] !in "address=/var/folders/xz/";
      assert token[0] !in "_vsfj__d63qc1x2n3lg6646m0000gn";
      assert token[0] !in "/T/plugin2160303011";
    }
    IndexWithoutFirstChar(ExampleMessage, token);
  }

  /** The message starts `plugin ` and not `plugin:`. */
  lemma ExampleMessageUntagged()
    ensures !HasPluginTag(ExampleMessage)
  {
    var head := ExampleMessage[..|PluginTag|];
    assert head[6] == ' ';
    ToLowerAt(head, 6);
    assert ToLower(head)[6] != PluginTag[6];
  }

  /** The example in the comment above the loop: the doubled DEBUG prefix leaves the plugin's own
      message, `plugin address: ...`. */
  lemma DocumentedExample(token: string)
    requires token == "DEBUG"
    ensures var ts := ExampleTimestamp;
            Normalize(ts + " [DEBUG] plugin: " + ts + " [DEBUG] plugin: " + ExampleMessage, token)
            == ExampleMessage
  {
    ExampleMessageHasNoToken(token);
    ExampleMessageUntagged();
    ExampleTimestampBracketed(token);
    assert !IsSpace(ExampleMessage[0]) && !IsSpace(ExampleMessage[|ExampleMessage| - 1]);
    assert LevelSeparator(token) == " [DEBUG] plugin: ";
    DoubledPrefixStripped(ExampleTimestamp, token, ExampleMessage);
  }

  /** As written, a level token that ends the line passes the `pos+1 < len` guard and the slice
      after it starts past the end of the line. */
  lemma {:induction false} TokenAtEndPanics(a: string, token: string)
    requires |token| >= 2 && Index(a + token, token) == |a|
    ensures NormalizeAsWritten(a + token, token)
            == Panicked(SliceOutOfRange(|a| + |token| + 1, |a| + |token|, |a| + |token|))
  {
  }

  /** The corrected loop keeps such a line as it is. */
  lemma {:induction false} TokenAtEndKept(a: string, token: string)
    requires |token| >= 2 && Index(a + token, token) == |a|
    requires !HasPluginTag(a + token)
    ensures Normalize(a + token, token) == a + token
  {
  }

  /** As written, a line of the token's length up to six characters that holds no level token
      panics at `logStr[:7]`, before the length check that was meant to guard it. */
  lemma ShortLinePanics(s: string, token: string)
    requires |token| <= |s| < |PluginTag| && Index(s, token) == -1
    ensures NormalizeAsWritten(s, token) == Panicked(SliceOutOfRange(0, |PluginTag|, |s|))
  {
  }

  /** As written, a message shorter than seven characters after `{timestamp} [LEVEL] ` panics in
      the same turn, once its prefix has been stripped. */
  lemma ShortMessagePanics(ts: string, token: string, msg: string)
    requires token != [] && BracketedTokenFirst(ts, token)
    requires |msg| < |PluginTag| && (msg == [] || (!IsSpace(msg[0]) && !IsSpace(msg[|msg| - 1])))
    ensures NormalizeAsWritten(ts + " [" + token + "] " + msg, token)
            == Panicked(SliceOutOfRange(0, |PluginTag|, |msg|))
  {
    StripLevelBeforeMessage(ts, token, msg);
  }

  /** The corrected loop keeps such a message, when it is shorter than the token. */
  lemma ShortMessageKept(ts: string, token: string, msg: string)
    requires token != [] && BracketedTokenFirst(ts, token)
    requires |msg| < |token| && |msg| < |PluginTag| && (msg == [] || (!IsSpace(msg[0]) && !IsSpace(msg[|msg| - 1])))
    ensures Normalize(ts + " [" + token + "] " + msg, token) == msg
  {
    var line := ts + " [" + token + "] " + msg;
    StripLevelBeforeMessage(ts, token, msg);
    assert DropPluginTag(msg) == msg;
    assert Normalize(msg, token) == msg;
    assert |line| >= |token|;
  }

  /** As written, a message of the token's length up to six characters after
      `{timestamp} [LEVEL] plugin: ` panics on the second turn: the first strips the prefix and
      the tag, the second finds no token and slices `logStr[:7]`. */
  lemma TaggedShortMessagePanics(ts: string, token: string, msg: string)
    requires token != [] && BracketedTokenFirst(ts, token)
    requires |token| <= |msg| < |PluginTag| && !IsSpace(msg[0]) && !IsSpace(msg[|msg| - 1])
    requires Index(msg, token) == -1
    ensures NormalizeAsWritten(ts + LevelSeparator(token) + msg, token)
            == Panicked(SliceOutOfRange(0, |PluginTag|, |msg|))
  {
    StripLevelOnPrefix(ts, token, msg);
    DropPluginTagOnTagged(msg);
  }

  /** The corrected loop returns such a message. */
  lemma TaggedShortMessageKept(ts: string, token: string, msg: string)
    requires token != [] && BracketedTokenFirst(ts, token)
    requires msg != [] && |msg| < |PluginTag| && !IsSpace(msg[0]) && !IsSpace(msg[|msg| - 1])
    requires Index(msg, token) == -1
    ensures Normalize(ts + LevelSeparator(token) + msg, token) == msg
  {
    StripsOnePrefix(ts, token, msg);
    CleanLineUnchanged(msg, token);
  }

  /** A concrete instance: the hclog line `{timestamp} [DEBUG] plugin: hello`. */
  lemma ShortMessageExample(token: string, msg: string)
    requires token == "DEBUG" && msg == "hello"
    ensures NormalizeAsWritten(ExampleTimestamp + LevelSeparator(token) + msg, token)
            == Panicked(SliceOutOfRange(0, 7, 5))
    ensures Normalize(ExampleTimestamp + LevelSeparator(token) + msg, token) == msg
  {
    ExampleTimestampBracketed(token);
    assert Index(msg, token) == -1 by {
      assert token[0] !in msg;
      IndexWithoutFirstChar(msg, token);
    }
    TaggedShortMessagePanics(ExampleTimestamp, token, msg);
    TaggedShortMessageKept(ExampleTimestamp, token, msg);
  }
}
