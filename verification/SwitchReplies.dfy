/**
  Which replies to "switch?" count as yes and as no, by where words stand in the text, and which of
  them end the question how.
*/
module SwitchReplies {
  import opened Wrappers
  import opened PyText
  import opened SwitchMachine
  import opened SwitchTheorems

  predicate BlankFree(s: string) { forall i :: 0 <= i < |s| ==> !IsBlank(s[i]) }

  /** w is a word that stands at position i: no blank in it, blanks or the ends of the text around it. */
  predicate Delimited(text: string, w: string, i: int) {
    && w != "" && BlankFree(w) && StartsAt(text, w, i)
    && (i == 0 || IsBlank(text[i - 1])) && (i + |w| == |text| || IsBlank(text[i + |w|]))
  }

  ghost predicate HasWord(text: string, w: string) { exists i :: Delimited(text, w, i) }

  // ---------------------------------------------------------------- splitting at blanks

  /** A text without blanks is its own only word. */
  lemma OneWord(text: string, w: string)
    requires BlankFree(text)
    ensures HasWord(text, w) <==> text != "" && w == text
  {
    if i :| Delimited(text, w, i) {
      assert i == 0 && |w| == |text|;
      assert text[0..|text|] == text;
    }
    if text != "" && w == text { assert text[0..|text|] == text && Delimited(text, w, 0); }
  }

  /** Words in front of a blank and behind it. */
  lemma WordsAround(front: string, blank: char, rest: string, w: string)
    requires BlankFree(front) && IsBlank(blank)
    ensures HasWord(front + [blank] + rest, w) <==> (front != "" && w == front) || HasWord(rest, w)
  {
    var text, n := front + [blank] + rest, |front|;
    if i :| Delimited(text, w, i) {
      assert text[i..i + |w|] == w;
      if i <= n { FirstWord(front, blank, rest, w, i); } else { RestWord(front, blank, rest, w, i - n - 1); }
    }
    if front != "" && w == front { assert text[..n] == front && Delimited(text, w, 0); }
    if j :| Delimited(rest, w, j) {
      RestWord(front, blank, rest, w, j);
      assert Delimited(text, w, j + n + 1);
    }
  }

  lemma FirstWord(front: string, blank: char, rest: string, w: string, i: int)
    requires BlankFree(front) && IsBlank(blank) && i <= |front| && Delimited(front + [blank] + rest, w, i)
    ensures front != "" && w == front
  {
    var text, n := front + [blank] + rest, |front|;
    assert forall k :: i <= k < i + |w| ==> text[k] == w[k - i];
    assert text[n] == blank && i + |w| <= n;
    assert forall k :: 0 <= k < n ==> text[k] == front[k];
    assert i == 0 && |w| == n;
    assert text[..n] == front;
  }

  lemma RestWord(front: string, blank: char, rest: string, w: string, j: int)
    requires IsBlank(blank) && 0 <= j
    ensures Delimited(front + [blank] + rest, w, j + |front| + 1) <==> Delimited(rest, w, j)
  {
    var text, n := front + [blank] + rest, |front| + 1;
    assert text[n..] == rest;
    if j + |w| <= |rest| { assert text[j + n..j + n + |w|] == rest[j..j + |w|]; }
    assert j > 0 && j <= |rest| ==> text[j + n - 1] == rest[j - 1];
    assert j + |w| < |rest| ==> text[j + n + |w|] == rest[j + |w|];
  }

  /** The words gathered are those that stand in the text, the part being read in front of it. */
  lemma {:induction false} WordsFromIff(text: string, word: string, w: string)
    requires BlankFree(word)
    ensures w in WordsFrom(text, word) <==> HasWord(word + text, w)
    decreases |text|
  {
    if text == "" {
      assert word + text == word;
      OneWord(word, w);
    } else if IsBlank(text[0]) {
      assert word + text == word + [text[0]] + text[1..];
      WordsAround(word, text[0], text[1..], w);
      WordsFromIff(text[1..], "", w);
      assert "" + text[1..] == text[1..];
    } else {
      assert word + text == (word + [text[0]]) + text[1..];
      WordsFromIff(text[1..], word + [text[0]], w);
    }
  }

  lemma WordsIff(text: string, w: string)
    ensures w in Words(text) <==> HasWord(text, w)
  {
    assert "" + text == text;
    WordsFromIff(text, "", w);
  }

  // ---------------------------------------------------------------- yes and no

  /** One of the words stands in the text. */
  ghost predicate HasAny(text: string, words: set<string>) { exists w :: w in words && HasWord(text, w) }

  lemma AnyIff(text: string, words: set<string>)
    ensures Words(text) * words != {} <==> HasAny(text, words)
  {
    if w :| w in Words(text) * words { WordsIff(text, w); }
    if w :| w in words && HasWord(text, w) {
      WordsIff(text, w);
      assert w in Words(text) * words;
    }
  }

  /** A reply counts as no exactly when one of the no words stands in it as a word of its own, in any
      case, or "don't" occurs anywhere; "know" and "note" do not count. */
  lemma IsNoIff(message: string)
    ensures IsNo(message) <==> HasAny(Reply(message), NO_WORDS) || Mentions(Reply(message), "don't")
  {
    AnyIff(Reply(message), NO_WORDS);
  }

  lemma IsYesIff(message: string)
    ensures IsYes(message) <==> HasAny(Reply(message), YES_WORDS) || Mentions(Reply(message), "go ahead")
  {
    AnyIff(Reply(message), YES_WORDS);
  }

  /** What the confirmation node does with a reply. */
  datatype Ruling = Accepted | Refused | AskedAgain

  ghost function RulingOf(reply: string): Ruling {
    if HasAny(reply, YES_WORDS) || Mentions(reply, "go ahead") then Accepted
    else if HasAny(reply, NO_WORDS) || Mentions(reply, "don't") then Refused
    else AskedAgain
  }

  /** The question is settled by the words of the reply alone, yes before no: accepted, the suspended
      session is active; refused, it is rejected and the running workflow goes on; otherwise the
      question stays open. */
  lemma RulingDecides(s: State)
    requires s.pending.Some?
    ensures var p, after := s.pending.value, Confirm(s);
      match RulingOf(Reply(s.message))
      case Accepted =>
        after.pending.None? && OnlyStatus(s.history, after.history, p.key, Active)
        && after.hint == StartHint(p.intent, p.resource, p.tool)
      case Refused =>
        after.pending.None? && OnlyStatus(s.history, after.history, p.key, Rejected) && after.hint == s.hint
      case AskedAgain => after.pending == s.pending && after.history == s.history && after.hint == s.hint
  {
    IsYesIff(s.message);
    IsNoIff(s.message);
    ConfirmationAnswers(s);
  }

  // ---------------------------------------------------------------- "roll no" and "ok no"

  /** A reply of two words. */
  lemma TwoWords(first: string, second: string, w: string)
    requires first != "" && second != "" && BlankFree(first) && BlankFree(second)
    ensures HasWord(first + [' '] + second, w) <==> w == first || w == second
  {
    WordsAround(first, ' ', second, w);
    OneWord(second, w);
  }

  lemma TooShort(text: string, phrase: string)
    requires |text| < |phrase|
    ensures !Mentions(text, phrase)
  {
  }

  /** The words are meant to let a reply like "roll no" through; it is a refusal. */
  lemma RollNoIsRefused()
    ensures RulingOf(Reply("Roll no")) == Refused
  {
    var reply := "roll" + [' '] + "no";
    assert Reply("Roll no") == reply;
    forall w ensures HasWord(reply, w) <==> w == "roll" || w == "no" { TwoWords("roll", "no", w); }
    TooShort(reply, "go ahead");
    assert "roll" !in YES_WORDS && "no" !in YES_WORDS && "no" in NO_WORDS;
  }

  /** With a yes word in front the same ending is an acceptance. */
  lemma OkNoIsAccepted()
    ensures RulingOf(Reply("ok no")) == Accepted && HasAny(Reply("ok no"), NO_WORDS)
  {
    assert Reply("ok no") == "ok" + [' '] + "no";
    TwoWords("ok", "no", "ok");
    TwoWords("ok", "no", "no");
    assert "ok" in YES_WORDS && "no" in NO_WORDS;
  }

  /** A reply that ends in the word "no" is never asked again: it is refused unless it says yes too. */
  lemma EndsInNo(before: string)
    ensures var reply := before + " no";
      RulingOf(reply) == if HasAny(reply, YES_WORDS) || Mentions(reply, "go ahead") then Accepted else Refused
  {
    var reply := before + " no";
    assert reply[|before| + 1..|before| + 3] == "no";
    assert Delimited(reply, "no", |before| + 1);
    assert HasWord(reply, "no") && "no" in NO_WORDS;
  }

  /** A phrase is mentioned when the text reads so somewhere, within a word or not. */
  lemma MentionsIff(text: string, phrase: string)
    ensures Mentions(text, phrase) <==> exists front, back :: text == front + phrase + back
  {
    if i :| 0 <= i <= |text| && StartsAt(text, phrase, i) {
      assert text == text[..i] + phrase + text[i + |phrase|..];
    }
    if front, back :| text == front + phrase + back {
      assert text[|front|..|front| + |phrase|] == phrase;
      assert StartsAt(text, phrase, |front|);
    }
  }
}
