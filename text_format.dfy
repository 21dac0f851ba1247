/**
  Pure text helpers of the chat page: `titlecase`, which formats the name
  typed on the name-entry screen, and the sender label shown before every
  transcript entry.

  `titlecase` lower-cases the whole string, splits it at every single space,
  upper-cases the first character of each piece and joins the pieces with
  single spaces again. Case mapping covers the ASCII letters only.
*/
module TextFormat {
  import opened ChatMessages

  // ASCII case mapping

  function Lower(c: char): char {
    if 'A' <= c <= 'Z' then (c as int + 32) as char else c
  }

  function Upper(c: char): char {
    if 'a' <= c <= 'z' then (c as int - 32) as char else c
  }

  /** `toLowerCase`, character by character. */
  function LowerStr(s: string): (r: string)
    ensures |r| == |s|
    ensures forall i :: 0 <= i < |s| ==> r[i] == Lower(s[i])
  {
    if s == [] then [] else [Lower(s[0])] + LowerStr(s[1..])
  }

  // `split(' ')` and `join(' ')`

  function CountSpaces(s: string): nat {
    if s == [] then 0 else (if s[0] == ' ' then 1 else 0) + CountSpaces(s[1..])
  }

  /** The position of the first space. */
  function FirstSpace(s: string): (k: nat)
    requires ' ' in s
    ensures k < |s| && s[k] == ' '
    ensures forall j :: 0 <= j < k ==> s[j] != ' '
  {
    if s[0] == ' ' then 0 else 1 + FirstSpace(s[1..])
  }

  /**
    `s.split(' ')`: the maximal space-free pieces between single spaces. Like
    the JavaScript method it never returns an empty list, and two adjacent
    spaces give an empty piece.
  */
  function Split(s: string): (words: seq<string>)
    ensures |words| == CountSpaces(s) + 1
    ensures forall w :: w in words ==> ' ' !in w
    decreases |s|
  {
    if ' ' in s then
      var k := FirstSpace(s);
      SplitCountAt(s, k);
      [s[..k]] + Split(s[k + 1..])
    else
      NoSpaceCount(s);
      [s]
  }

  /** The total length of the words. */
  function TotalLength(words: seq<string>): nat {
    if words == [] then 0 else |words[0]| + TotalLength(words[1..])
  }

  /** `words.join(' ')`: exactly one separator between consecutive words. */
  function Join(words: seq<string>): (s: string)
    ensures words != [] ==> |s| == TotalLength(words) + |words| - 1
    ensures words != [] ==> s[..|words[0]|] == words[0]
  {
    if words == [] then ""
    else if |words| == 1 then words[0]
    else words[0] + " " + Join(words[1..])
  }

  /** The map callback: `word.charAt(0).toUpperCase() + word.slice(1)`. */
  function Capitalize(word: string): (r: string)
    ensures |r| == |word|
    ensures word != [] ==> r[0] == Upper(word[0])
    ensures forall i :: 0 < i < |word| ==> r[i] == word[i]
  {
    if word == [] then [] else [Upper(word[0])] + word[1..]
  }

  function CapitalizeAll(words: seq<string>): (r: seq<string>)
    ensures |r| == |words|
    ensures forall i :: 0 <= i < |words| ==> r[i] == Capitalize(words[i])
  {
    if words == [] then [] else [Capitalize(words[0])] + CapitalizeAll(words[1..])
  }

  /** The split/map/join pipeline of `titlecase`, applied after lower-casing. */
  function CapitalizeWords(t: string): string {
    Join(CapitalizeAll(Split(t)))
  }

  /**
    `titlecase(str)`: character for character the lower-cased input, with the
    first character of every space-separated word upper-cased.
  */
  function Titlecase(s: string): (r: string)
    ensures IsTitleOf(r, s)
  {
    CapitalizeWordsChars(LowerStr(s));
    CapitalizeWords(LowerStr(s))
  }

  /** The character the pipeline puts at position `i`: upper-cased at a word start, unchanged elsewhere. */
  function WordStartUpper(t: string, i: nat): char
    requires i < |t|
  {
    if i == 0 || t[i - 1] == ' ' then Upper(t[i]) else t[i]
  }

  /**
    The character `titlecase` puts at position `i` of `s`: the upper-cased
    lower-case letter at the start of a word, the lower-cased letter elsewhere.
  */
  function TitleChar(s: string, i: nat): char
    requires i < |s|
  {
    if i == 0 || s[i - 1] == ' ' then Upper(Lower(s[i])) else Lower(s[i])
  }

  /** `r` is `s` formatted character by character, independent of any split or join. */
  ghost predicate IsTitleOf(r: string, s: string) {
    |r| == |s| && forall i :: 0 <= i < |s| ==> r[i] == TitleChar(s, i)
  }

  // Counting helpers for `Split`

  lemma {:induction false} CountSpacesAppend(a: string, b: string)
    ensures CountSpaces(a + b) == CountSpaces(a) + CountSpaces(b)
  {
    if a != [] {
      assert (a + b)[1..] == a[1..] + b;
      CountSpacesAppend(a[1..], b);
    } else {
      assert a + b == b;
    }
  }

  lemma {:induction false} NoSpaceCount(s: string)
    requires ' ' !in s
    ensures CountSpaces(s) == 0
  {
    if s != [] {
      assert ' ' !in s[1..] by {
        forall j | 0 <= j < |s| - 1 ensures s[1..][j] != ' ' { assert s[1..][j] == s[j + 1]; }
      }
      NoSpaceCount(s[1..]);
    }
  }

  lemma SplitCountAt(s: string, k: nat)
    requires k < |s| && s[k] == ' ' && forall j :: 0 <= j < k ==> s[j] != ' '
    ensures CountSpaces(s) == CountSpaces(s[k + 1..]) + 1
  {
    assert s == s[..k] + [' '] + s[k + 1..];
    CountSpacesAppend(s[..k] + [' '], s[k + 1..]);
    CountSpacesAppend(s[..k], [' ']);
    assert ' ' !in s[..k];
    NoSpaceCount(s[..k]);
  }

  // Split and join are inverse to each other

  /** Joining the pieces of a split gives the string back. */
  lemma {:induction false} JoinSplit(s: string)
    ensures Join(Split(s)) == s
    decreases |s|
  {
    if ' ' in s {
      var k := FirstSpace(s);
      JoinSplit(s[k + 1..]);
      assert Split(s)[1..] == Split(s[k + 1..]);
      assert s == s[..k] + " " + s[k + 1..];
    }
  }

  /** Splitting a join of space-free pieces gives the pieces back. */
  lemma {:induction false} SplitJoin(words: seq<string>)
    requires |words| >= 1
    requires forall w :: w in words ==> ' ' !in w
    ensures Split(Join(words)) == words
  {
    if |words| > 1 {
      var s := Join(words);
      var w := words[0];
      assert s == w + " " + Join(words[1..]);
      assert s[|w|] == ' ';
      assert ' ' in s;
      assert w in words;
      forall j | 0 <= j < |w| ensures s[j] != ' ' { assert s[j] == w[j] && w[j] in w; }
      assert FirstSpace(s) == |w|;
      assert s[..|w|] == w;
      assert s[|w| + 1..] == Join(words[1..]);
      SplitJoin(words[1..]);
    } else {
      assert ' ' !in words[0];
    }
  }

  // Properties of titlecase

  lemma LowerUpperLower(c: char)
    ensures Lower(Upper(Lower(c))) == Lower(c)
    ensures Upper(Lower(Upper(Lower(c)))) == Upper(Lower(c))
    ensures Lower(Lower(c)) == Lower(c)
  {
  }

  lemma CapitalizeNoSpace(w: string)
    requires ' ' !in w
    ensures ' ' !in Capitalize(w)
  {
    if w != [] {
      assert w[0] in w;
      forall j | 0 < j < |w| ensures Capitalize(w)[j] != ' ' { assert w[j] in w; }
    }
  }

  /** One step of the pipeline: the first word, a space, and the pipeline on the rest. */
  lemma CapitalizeWordsUnfold(t: string)
    requires ' ' in t
    ensures CapitalizeWords(t)
         == Capitalize(t[..FirstSpace(t)]) + " " + CapitalizeWords(t[FirstSpace(t) + 1..])
  {
    var k := FirstSpace(t);
    var rest := Split(t[k + 1..]);
    var ws := CapitalizeAll(Split(t));
    assert Split(t) == [t[..k]] + rest;
    assert |rest| >= 1 && |ws| == 1 + |rest|;
    assert ws[0] == Capitalize(t[..k]);
    assert ws[1..] == CapitalizeAll(rest) by {
      assert CapitalizeAll(Split(t)) == [Capitalize(Split(t)[0])] + CapitalizeAll(Split(t)[1..]);
      assert Split(t)[1..] == rest;
    }
    assert Join(ws) == ws[0] + " " + Join(ws[1..]);
  }

  /** The character at position `i` of one unfolded pipeline step. */
  lemma UnfoldedCharAt(t: string, k: nat, tail: string, i: nat)
    requires k < |t| && t[k] == ' ' && forall j :: 0 <= j < k ==> t[j] != ' '
    requires |tail| == |t| - k - 1
    requires forall j :: 0 <= j < |tail| ==> tail[j] == WordStartUpper(t[k + 1..], j)
    requires i < |t|
    ensures (Capitalize(t[..k]) + " " + tail)[i] == WordStartUpper(t, i)
  {
    var r := Capitalize(t[..k]) + " " + tail;
    if i < k {
      assert r[i] == Capitalize(t[..k])[i];
      if i > 0 { assert t[i - 1] != ' ' && t[..k][i] == t[i]; }
    } else if i == k {
      assert r[i] == ' ';
    } else {
      assert r[i] == tail[i - k - 1];
      assert t[k + 1..][i - k - 1] == t[i];
      if i > k + 1 { assert t[k + 1..][i - k - 2] == t[i - 1]; }
    }
  }

  /**
    The pipeline on any string upper-cases exactly the characters at the
    start of a space-separated word and changes nothing else.
  */
  lemma {:induction false} CapitalizeWordsChars(t: string)
    ensures |CapitalizeWords(t)| == |t|
    ensures forall i :: 0 <= i < |t| ==> CapitalizeWords(t)[i] == WordStartUpper(t, i)
    decreases |t|
  {
    if ' ' in t {
      var k := FirstSpace(t);
      CapitalizeWordsChars(t[k + 1..]);
      CapitalizeWordsUnfold(t);
      forall i | 0 <= i < |t| ensures CapitalizeWords(t)[i] == WordStartUpper(t, i) {
        UnfoldedCharAt(t, k, CapitalizeWords(t[k + 1..]), i);
      }
    } else {
      assert Split(t) == [t];
      assert CapitalizeWords(t) == Capitalize(t);
      forall j | 0 <= j < |t| ensures t[j] != ' ' { assert t[j] in t; }
    }
  }

  /** The length is preserved, and so is every space position. */
  lemma TitlecasePreservesSpaces(s: string)
    ensures |Titlecase(s)| == |s|
    ensures forall i :: 0 <= i < |s| ==> (Titlecase(s)[i] == ' ' <==> s[i] == ' ')
  {
  }

  /**
    The words of the result are the lower-cased words of the input with their
    first character upper-cased, so the number of words is preserved.
  */
  lemma TitlecaseWords(s: string)
    ensures Split(Titlecase(s)) == CapitalizeAll(Split(LowerStr(s)))
    ensures |Split(Titlecase(s))| == |Split(s)|
  {
    var words := Split(LowerStr(s));
    forall w | w in CapitalizeAll(words) ensures ' ' !in w {
      var i :| 0 <= i < |words| && CapitalizeAll(words)[i] == w;
      assert words[i] in words;
      CapitalizeNoSpace(words[i]);
    }
    SplitJoin(CapitalizeAll(words));
    TitlecasePreservesSpaces(s);
    SameSpacesSameCount(Titlecase(s), s);
  }

  lemma {:induction false} SameSpacesSameCount(a: string, b: string)
    requires |a| == |b|
    requires forall i :: 0 <= i < |a| ==> (a[i] == ' ' <==> b[i] == ' ')
    ensures CountSpaces(a) == CountSpaces(b)
  {
    if a != [] {
      assert a[0] == ' ' <==> b[0] == ' ';
      SameSpacesSameCount(a[1..], b[1..]);
    }
  }

  /** Formatting an already formatted name changes nothing. */
  lemma TitlecaseIdempotent(s: string)
    ensures Titlecase(Titlecase(s)) == Titlecase(s)
  {
    var r := Titlecase(s);
    forall i | 0 <= i < |s| ensures Titlecase(r)[i] == r[i] {
      LowerUpperLower(s[i]);
      if i > 0 {
        assert r[i - 1] == ' ' <==> s[i - 1] == ' ';
      }
    }
  }

  // The sender label

  /** The label in front of a transcript entry, and whether it is highlighted as one's own. */
  datatype Label = Label(text: string, own: bool)

  /**
    The sender label: entries whose `userName` equals the session's own name
    show `[Me]` in red, all others show the sender's name in brackets in green.
  */
  function SenderLabel(entry: ChatMessage, me: string): (l: Label)
    ensures l.own <==> entry.userName == me
    ensures l.own ==> l.text == "[Me]"
    ensures !l.own ==>
      && |l.text| == |entry.userName| + 2
      && l.text[0] == '[' && l.text[|l.text| - 1] == ']'
      && l.text[1..|l.text| - 1] == entry.userName
  {
    if entry.userName == me then Label("[Me]", true)
    else Label("[" + entry.userName + "]", false)
  }

  /**
    The text `[Me]` appears exactly for one's own entries and for entries of
    another user literally named `Me`: the label alone does not tell them apart.
  */
  lemma LabelMeIff(entry: ChatMessage, me: string)
    ensures SenderLabel(entry, me).text == "[Me]" <==> entry.userName == me || entry.userName == "Me"
  {
    var l := SenderLabel(entry, me);
    if l.text == "[Me]" && entry.userName != me {
      assert entry.userName == l.text[1..3];
    }
  }

  /** Entries of other users with different names get different labels. */
  lemma LabelDistinguishesOthers(a: ChatMessage, b: ChatMessage, me: string)
    requires a.userName != me && b.userName != me
    requires SenderLabel(a, me) == SenderLabel(b, me)
    ensures a.userName == b.userName
  {
  }
}
