// The deterministic token counter: a run of letters, digits and underscores is
// one token, any other character that is no ASCII blank is one token.
module Tokenizer {

  predicate IsWord(c: char) {
    ('A' <= c <= 'Z') || ('a' <= c <= 'z') || ('0' <= c <= '9') || c == '_'
  }

  // \s under the ASCII flag.
  predicate IsBlank(c: char) {
    c == ' ' || '\t' <= c <= '\r'
  }

  // The length of the longest word prefix.
  function WordRun(text: string): (n: nat)
    ensures n <= |text|
    ensures forall i :: 0 <= i < n ==> IsWord(text[i])
    ensures n < |text| ==> !IsWord(text[n])
  {
    if text == [] || !IsWord(text[0]) then 0 else 1 + WordRun(text[1..])
  }

  // The number of non-overlapping matches found from left to right, each word
  // match as long as possible.
  function CountTokens(text: string): nat {
    if text == [] then 0
    else if IsWord(text[0]) then 1 + CountTokens(text[WordRun(text)..])
    else if IsBlank(text[0]) then CountTokens(text[1..])
    else 1 + CountTokens(text[1..])
  }

  predicate TokenStart(text: string, i: nat)
    requires i < |text|
  {
    !IsBlank(text[i]) && !(IsWord(text[i]) && i > 0 && IsWord(text[i - 1]))
  }

  // The number of positions at which a token starts, wherever a scan begins.
  function Starts(text: string): nat {
    if text == [] then 0
    else Starts(text[..|text| - 1]) + if TokenStart(text, |text| - 1) then 1 else 0
  }

  predicate Fuses(a: string, b: string) {
    a != [] && b != [] && IsWord(a[|a| - 1]) && IsWord(b[0])
  }

  lemma {:induction false} StartsConcat(a: string, b: string)
    ensures Starts(a + b) + (if Fuses(a, b) then 1 else 0) == Starts(a) + Starts(b)
    decreases |b|
  {
    if b == [] {
      assert a + b == a;
    } else {
      var b', last := b[..|b| - 1], b[|b| - 1];
      assert (a + b)[..|a + b| - 1] == a + b';
      StartsConcat(a, b');
      assert (a + b)[|a + b| - 1] == last;
      if |b| > 1 { assert (a + b)[|a + b| - 2] == b[|b| - 2]; }
    }
  }

  lemma {:induction false} StartsOfWord(w: string)
    requires w != [] && forall i :: 0 <= i < |w| ==> IsWord(w[i])
    ensures Starts(w) == 1
  {
    if |w| > 1 { StartsOfWord(w[..|w| - 1]); }
  }

  // The greedy left-to-right scan counts exactly the token starts.
  lemma {:induction false} ScanCountsStarts(text: string)
    ensures CountTokens(text) == Starts(text)
    decreases |text|
  {
    if text != [] {
      var n := if IsWord(text[0]) then WordRun(text) else 1;
      var head, rest := text[..n], text[n..];
      assert text == head + rest;
      ScanCountsStarts(rest);
      StartsConcat(head, rest);
      if IsWord(text[0]) { StartsOfWord(head); }
    }
  }

  // A concatenation has one token fewer than its parts when the seam joins two
  // words, and otherwise exactly as many.
  lemma CountConcat(a: string, b: string)
    ensures CountTokens(a + b) + (if Fuses(a, b) then 1 else 0) == CountTokens(a) + CountTokens(b)
  {
    ScanCountsStarts(a);
    ScanCountsStarts(b);
    ScanCountsStarts(a + b);
    StartsConcat(a, b);
  }

  lemma CountPrefix(text: string, n: nat)
    requires n <= |text|
    ensures CountTokens(text[..n]) <= CountTokens(text)
  {
    assert text == text[..n] + text[n..];
    CountConcat(text[..n], text[n..]);
    if Fuses(text[..n], text[n..]) {
      assert CountTokens(text[n..]) > 0;
    }
  }

  datatype Role = System | User | Assistant | Tool

  function Label(r: Role): string {
    match r
    case System => "system"
    case User => "user"
    case Assistant => "assistant"
    case Tool => "tool"
  }

  datatype Message = Message(role: Role, content: string)

  // The role label counts along with the content.
  function MessageTokens(m: Message): nat { CountTokens(Label(m.role)) + CountTokens(m.content) }

  function TotalTokens(messages: seq<Message>): nat {
    if messages == [] then 0 else TotalTokens(messages[..|messages| - 1]) + MessageTokens(messages[|messages| - 1])
  }

  // The loop over role and content of every message.
  method CountMessageTokens(messages: seq<Message>) returns (total: nat)
    ensures total == TotalTokens(messages)
  {
    total := 0;
    for i := 0 to |messages|
      invariant total == TotalTokens(messages[..i])
    {
      assert messages[..i + 1][..i] == messages[..i];
      total := total + CountTokens(Label(messages[i].role));
      total := total + CountTokens(messages[i].content);
    }
    assert messages[..|messages|] == messages;
  }

  lemma {:induction false} TotalConcat(a: seq<Message>, b: seq<Message>)
    ensures TotalTokens(a + b) == TotalTokens(a) + TotalTokens(b)
    decreases |b|
  {
    if b == [] {
      assert a + b == a;
    } else {
      assert (a + b)[..|a + b| - 1] == a + b[..|b| - 1];
      TotalConcat(a, b[..|b| - 1]);
    }
  }
}

// Whitespace normalisation and clipping of message text.
module Text {
  import opened Tokenizer

  // What str.split and str.rstrip take for whitespace: the ASCII blanks, the
  // four separators and the other Unicode spaces.
  predicate IsSpace(c: char) {
    IsBlank(c) || '\U{1C}' <= c <= '\U{1F}' || c == '\U{85}' || c == '\U{A0}' || c == '\U{1680}'
    || '\U{2000}' <= c <= '\U{200A}' || c == '\U{2028}' || c == '\U{2029}' || c == '\U{202F}'
    || c == '\U{205F}' || c == '\U{3000}'
  }

  // A space that the token counter takes for a symbol.
  predicate IsOddSpace(c: char) { IsSpace(c) && !IsBlank(c) }

  function OddSpaces(s: string): nat {
    if s == [] then 0 else OddSpaces(s[1..]) + if IsOddSpace(s[0]) then 1 else 0
  }

  function SpaceRun(s: string): (n: nat)
    ensures n <= |s|
    ensures forall i :: 0 <= i < n ==> IsSpace(s[i])
    ensures n < |s| ==> !IsSpace(s[n])
  {
    if s == [] || !IsSpace(s[0]) then 0 else 1 + SpaceRun(s[1..])
  }

  function SolidRun(s: string): (n: nat)
    ensures n <= |s|
    ensures forall i :: 0 <= i < n ==> !IsSpace(s[i])
    ensures n < |s| ==> IsSpace(s[n])
  {
    if s == [] || IsSpace(s[0]) then 0 else 1 + SolidRun(s[1..])
  }

  function Split(s: string): (words: seq<string>)
    ensures forall i :: 0 <= i < |words| ==> words[i] != []
    decreases |s|
  {
    var t := s[SpaceRun(s)..];
    if t == [] then [] else [t[..SolidRun(t)]] + Split(t[SolidRun(t)..])
  }

  function Join(words: seq<string>): string {
    if words == [] then "" else if |words| == 1 then words[0] else words[0] + " " + Join(words[1..])
  }

  function Normalise(s: string): string { Join(Split(s)) }

  function TrimEnd(s: string): (t: string)
    ensures |t| <= |s| && t == s[..|t|]
    ensures t != [] ==> !IsSpace(t[|t| - 1])
  {
    if s != [] && IsSpace(s[|s| - 1]) then TrimEnd(s[..|s| - 1]) else s
  }

  function Clip(content: string, limit: nat): string {
    var clean := Normalise(content);
    if |clean| <= limit then clean
    else TrimEnd(clean[..if limit < 3 then 0 else limit - 3]) + "..."
  }

  lemma {:induction false} OddSpacesConcat(a: string, b: string)
    ensures OddSpaces(a + b) == OddSpaces(a) + OddSpaces(b)
  {
    if a == [] {
      assert a + b == b;
    } else {
      assert (a + b)[1..] == a[1..] + b;
      OddSpacesConcat(a[1..], b);
    }
  }

  lemma {:induction false} SpacesCount(s: string)
    requires forall i :: 0 <= i < |s| ==> IsSpace(s[i])
    ensures CountTokens(s) == OddSpaces(s)
  {
    if s != [] { SpacesCount(s[1..]); }
  }

  lemma {:induction false} SolidHasNoSpaces(s: string)
    requires forall i :: 0 <= i < |s| ==> !IsSpace(s[i])
    ensures OddSpaces(s) == 0
  {
    if s != [] { SolidHasNoSpaces(s[1..]); }
  }

  lemma {:induction false} JoinCons(w: string, words: seq<string>)
    ensures CountTokens(Join([w] + words)) == CountTokens(w) + CountTokens(Join(words))
  {
    assert ([w] + words)[1..] == words;
    if words != [] {
      CountConcat(w + " ", Join(words));
      CountConcat(w, " ");
      assert (w + " ")[|w|] == ' ';
    }
  }

  // Cutting at a space never separates a word.
  lemma CutAtSpace(a: string, b: string)
    requires a == [] || b == [] || IsSpace(a[|a| - 1]) || IsSpace(b[0])
    ensures CountTokens(a + b) == CountTokens(a) + CountTokens(b)
    ensures OddSpaces(a + b) == OddSpaces(a) + OddSpaces(b)
  {
    CountConcat(a, b);
    OddSpacesConcat(a, b);
  }

  // Normalising loses exactly the odd spaces, so it preserves the count if and
  // only if the text has none.
  lemma {:induction false} NormaliseCount(s: string)
    ensures CountTokens(Normalise(s)) + OddSpaces(s) == CountTokens(s)
    decreases |s|
  {
    hide CountTokens, OddSpaces, IsSpace, Join, SpaceRun, SolidRun;
    var lead, t := s[..SpaceRun(s)], s[SpaceRun(s)..];
    assert s == lead + t;
    SpacesCount(lead);
    CutAtSpace(lead, t);
    if t == [] {
      EmptyCounts();
    } else {
      var word, rest := t[..SolidRun(t)], t[SolidRun(t)..];
      assert t == word + rest;
      NormaliseCount(rest);
      JoinCons(word, Split(rest));
      SolidHasNoSpaces(word);
      CutAtSpace(word, rest);
    }
  }

  lemma EmptyCounts()
    ensures CountTokens("") == 0 && OddSpaces("") == 0 && Join([]) == ""
  {
  }

  lemma EllipsisCount()
    ensures CountTokens("...") == 3
  {
    assert "..."[1..] == ".." && ".."[1..] == "." && "."[1..] == "";
  }

  // Clipping adds at most the three tokens of its ellipsis and respects its
  // limit whenever the ellipsis fits.
  lemma ClipBounds(content: string, limit: nat)
    ensures CountTokens(Clip(content, limit)) <= CountTokens(content) + 3
    ensures |Clip(content, limit)| <= if limit < 3 then 3 else limit
    ensures |Normalise(content)| <= limit ==>
      CountTokens(Clip(content, limit)) + OddSpaces(content) == CountTokens(content)
  {
    hide CountTokens, Normalise, OddSpaces, Fuses, IsSpace, TrimEnd;
    var clean := Normalise(content);
    NormaliseCount(content);
    if |clean| > limit {
      var cut := clean[..if limit < 3 then 0 else limit - 3];
      var kept := TrimEnd(cut);
      assert kept == clean[..|kept|];
      CountPrefix(clean, |kept|);
      CountConcat(kept, "...");
      EllipsisCount();
    }
  }

  // ----- what normalising and clipping keep -----

  // The characters of a text that are no spaces, in order.
  function Solid(s: string): string {
    if s == [] then [] else (if IsSpace(s[0]) then [] else [s[0]]) + Solid(s[1..])
  }

  lemma {:induction false} SolidConcat(a: string, b: string)
    ensures Solid(a + b) == Solid(a) + Solid(b)
  {
    hide IsSpace;
    if a == [] {
      assert a + b == b;
    } else {
      assert (a + b)[1..] == a[1..] + b;
      SolidConcat(a[1..], b);
    }
  }

  lemma {:induction false} SolidOf(s: string)
    ensures (forall i :: 0 <= i < |s| ==> IsSpace(s[i])) ==> Solid(s) == []
    ensures (forall i :: 0 <= i < |s| ==> !IsSpace(s[i])) ==> Solid(s) == s
  {
    hide IsSpace;
    if s != [] { SolidOf(s[1..]); }
  }

  // Words in a row with one blank between any two.
  ghost predicate Spaced(s: string) {
    forall i :: 0 <= i < |s| && IsSpace(s[i]) ==> s[i] == ' ' && 0 < i < |s| - 1 && !IsSpace(s[i - 1]) && !IsSpace(s[i + 1])
  }

  lemma SpacedCons(w: string, rest: string)
    requires w != [] && (forall i :: 0 <= i < |w| ==> !IsSpace(w[i])) && rest != [] && Spaced(rest)
    ensures Spaced(w + " " + rest)
  {
    hide IsSpace;
    var s := w + " " + rest;
    assert forall i :: 0 <= i < |w| ==> s[i] == w[i];
    assert !IsSpace(rest[0]);
    forall i | 0 <= i < |s| && IsSpace(s[i])
      ensures s[i] == ' ' && 0 < i < |s| - 1 && !IsSpace(s[i - 1]) && !IsSpace(s[i + 1])
    {
      assert i >= |w|;
      if i == |w| {
        assert s[i - 1] == w[i - 1] && s[i + 1] == rest[0];
      } else {
        var k := i - |w| - 1;
        assert s[i] == rest[k];
        assert s[i - 1] == rest[k - 1] && s[i + 1] == rest[k + 1];
      }
    }
  }

  lemma SolidParts(lead: string, word: string, rest: string)
    requires (forall i :: 0 <= i < |lead| ==> IsSpace(lead[i])) && forall i :: 0 <= i < |word| ==> !IsSpace(word[i])
    ensures Solid(lead + (word + rest)) == word + Solid(rest)
  {
    hide IsSpace, Solid;
    SolidOf(lead);
    SolidOf(word);
    SolidConcat(lead, word + rest);
    SolidConcat(word, rest);
    assert [] + (word + Solid(rest)) == word + Solid(rest);
  }

  // One word more in front.
  lemma JoinKeeps(word: string, rest: string)
    requires word != [] && rest != [] && Spaced(rest) && forall i :: 0 <= i < |word| ==> !IsSpace(word[i])
    ensures Spaced(word + " " + rest) && Solid(word + " " + rest) == word + Solid(rest)
  {
    hide IsSpace, Solid, Spaced;
    SpacedCons(word, rest);
    SolidConcat(word + " ", rest);
    SolidConcat(word, " ");
    SolidOf(word);
    OneBlank();
    assert word + [] == word;
  }

  // Normalising keeps every other character, in order, and leaves one blank
  // between words and none around them.
  lemma {:induction false} NormaliseKeeps(s: string)
    ensures Solid(Normalise(s)) == Solid(s) && Spaced(Normalise(s))
    ensures Normalise(s) == "" <==> Split(s) == []
    decreases |s|
  {
    hide IsSpace, SpaceRun, SolidRun, Spaced, Solid;
    var lead, t := s[..SpaceRun(s)], s[SpaceRun(s)..];
    assert s == lead + t;
    if t == [] {
      NoneSpaced("");
      SolidOf(s);
      SolidOf("");
    } else {
      var word, rest := t[..SolidRun(t)], t[SolidRun(t)..];
      assert t == word + rest;
      SolidParts(lead, word, rest);
      NormaliseKeeps(rest);
      assert Split(s) == [word] + Split(rest) && ([word] + Split(rest))[1..] == Split(rest);
      if Split(rest) == [] {
        NoneSpaced(word);
        SolidOf(word);
        SolidOf("");
        assert word + [] == word;
      } else {
        JoinKeeps(word, Normalise(rest));
      }
    }
  }

  lemma NoneSpaced(s: string)
    requires forall i :: 0 <= i < |s| ==> !IsSpace(s[i])
    ensures Spaced(s)
  {
  }

  lemma OneBlank()
    ensures Solid(" ") == []
  {
  }

  // A clipped text is the normalised one, or as much of its beginning as the
  // limit leaves room for before the ellipsis, but no blank before that.
  lemma ClipKeeps(content: string, limit: nat) returns (n: nat)
    ensures |Normalise(content)| <= limit ==> Clip(content, limit) == Normalise(content)
    ensures |Normalise(content)| > limit ==>
      var clean, room := Normalise(content), if limit < 3 then 0 else limit - 3;
      && n <= room && Clip(content, limit) == clean[..n] + "..."
      && (forall i :: n <= i < room ==> IsSpace(clean[i])) && (n > 0 ==> !IsSpace(clean[n - 1]))
  {
    hide Normalise, IsSpace, TrimEnd;
    var clean, room := Normalise(content), if limit < 3 then 0 else limit - 3;
    n := 0;
    if |clean| > limit {
      var cut := clean[..room];
      n := |TrimEnd(cut)|;
      TrimmedSpaces(cut);
      assert TrimEnd(cut) == clean[..n];
      assert forall i :: n <= i < room ==> cut[i] == clean[i];
    }
  }

  lemma {:induction false} TrimmedSpaces(s: string)
    ensures forall i :: |TrimEnd(s)| <= i < |s| ==> IsSpace(s[i])
  {
    hide IsSpace;
    if s != [] && IsSpace(s[|s| - 1]) { TrimmedSpaces(s[..|s| - 1]); }
  }

  // A text is clipped to nothing if and only if it has nothing but spaces.
  lemma ClipEmpty(content: string, limit: nat)
    requires limit > 0
    ensures Clip(content, limit) == "" <==> Solid(content) == ""
  {
    hide Normalise, IsSpace, Clip;
    NormaliseKeeps(content);
    var n := ClipKeeps(content, limit);
    if Normalise(content) != "" { assert !IsSpace(Normalise(content)[0]); }
  }
}
