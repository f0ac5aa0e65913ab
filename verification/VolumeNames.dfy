/** How a provisioning secret gets the name of its pod volume, and when two secrets get the same
    one. */
module VolumeNames {

  const PREFIX := "provisioning-"

  datatype SecretRef = SecretRef(name: string, key: string) {
    function String(): string { name + "-" + key }
  }

  predicate Upper(c: char) { 'A' <= c <= 'Z' }
  predicate Alnum(c: char) { 'a' <= c <= 'z' || '0' <= c <= '9' }

  // Two letters outside ASCII, the Kelvin sign and the dotted capital I, have their lower case in
  // it. All others stay outside, where it does not matter to the name which ones they are.
  function LowerChar(c: char): char {
    if Upper(c) then 'a' + (c - 'A')
    else if c == '\U{212A}' then 'k'
    else if c == '\U{130}' then 'i'
    else c
  }

  function Lower(s: string): string { seq(|s|, i requires 0 <= i < |s| => LowerChar(s[i])) }

  // Every run of other characters becomes one hyphen.
  function ReplaceRuns(s: string, inRun: bool): string {
    if s == [] then []
    else if Alnum(s[0]) then [s[0]] + ReplaceRuns(s[1..], false)
    else if inRun then ReplaceRuns(s[1..], true)
    else ['-'] + ReplaceRuns(s[1..], true)
  }

  function TrimLeft(s: string): (t: string)
    ensures t == "" || t[0] != '-'
  {
    if s != [] && s[0] == '-' then TrimLeft(s[1..]) else s
  }

  function TrimRight(s: string): (t: string)
    ensures t == "" || t[|t| - 1] != '-'
  {
    if s != [] && s[|s| - 1] == '-' then TrimRight(s[..|s| - 1]) else s
  }

  function Normalise(s: string): string { TrimRight(TrimLeft(ReplaceRuns(Lower(s), false))) }

  function VolumeName(r: SecretRef): string { PREFIX + Normalise(r.String()) }

  // Capital letters stand 32 code points before their small ones; nothing else in ASCII changes.
  lemma LowerIs(s: string, i: nat)
    requires i < |s|
    ensures |Lower(s)| == |s|
    ensures 65 <= s[i] as int <= 90 ==> Lower(s)[i] as int == s[i] as int + 32
    ensures s[i] as int < 128 && !(65 <= s[i] as int <= 90) ==> Lower(s)[i] == s[i]
  {
  }

  // Small letters and digits by their code points.
  lemma AlnumIs(c: char)
    ensures Alnum(c) <==> 97 <= c as int <= 122 || 48 <= c as int <= 57
  {
  }

  // Beyond ASCII the Kelvin sign and the dotted capital I become letters of it, and no other character does.
  lemma LowerBeyondAscii(c: char)
    requires c as int >= 128
    ensures Alnum(LowerChar(c)) <==> c as int == 0x212A || c as int == 0x130
    ensures c as int == 0x212A ==> LowerChar(c) == 'k'
    ensures c as int == 0x130 ==> LowerChar(c) == 'i'
  {
  }

  // ---- The same thing said with words ----

  // The maximal runs of letters and digits.
  function Words(s: string): (ws: seq<string>)
    ensures s != [] && Alnum(s[0]) ==> ws != []
  {
    if s == [] then []
    else if !Alnum(s[0]) then Words(s[1..])
    else
      var ws := Words(s[1..]);
      if |s| > 1 && Alnum(s[1]) then [[s[0]] + ws[0]] + ws[1..] else [[s[0]]] + ws
  }

  function Join(ws: seq<string>): string {
    if ws == [] then "" else if |ws| == 1 then ws[0] else ws[0] + "-" + Join(ws[1..])
  }

  predicate IsWord(w: string) { w != [] && forall i :: 0 <= i < |w| ==> Alnum(w[i]) }
  predicate AreWords(ws: seq<string>) { forall i :: 0 <= i < |ws| ==> IsWord(ws[i]) }

  lemma {:induction false} WordsAreWords(s: string)
    ensures AreWords(Words(s))
  {
    if s != [] { WordsAreWords(s[1..]); }
  }

  function Tail(s: string): string {
    if Words(s) != [] && !Alnum(s[|s| - 1]) then "-" else ""
  }

  lemma TailOfRest(s: string)
    requires |s| > 1 && Words(s[1..]) != []
    ensures Words(s) != [] && Tail(s) == Tail(s[1..])
  {
    assert s[1..][|s| - 2] == s[|s| - 1];
  }

  lemma JoinLonger(c: char, ws: seq<string>)
    requires ws != []
    ensures Join([[c] + ws[0]] + ws[1..]) == [c] + Join(ws)
  {
    var vs := [[c] + ws[0]] + ws[1..];
    assert vs[1..] == ws[1..];
    if |ws| > 1 { assert [c] + ws[0] + "-" + Join(ws[1..]) == [c] + (ws[0] + "-" + Join(ws[1..])); }
  }

  lemma JoinOneMore(c: char, ws: seq<string>)
    ensures Join([[c]] + ws) == [c] + (if ws == [] then "" else "-" + Join(ws))
  {
    var vs := [[c]] + ws;
    assert vs[1..] == ws;
    if ws != [] { assert [c] + "-" + Join(ws) == [c] + ("-" + Join(ws)); }
  }

  // What follows a hyphen: the words, and one more hyphen if anything else follows the last.
  lemma {:induction false} RunsAreJoints(s: string)
    ensures ReplaceRuns(s, true) == Join(Words(s)) + Tail(s)
    decreases |s|
  {
    if s != [] {
      var t := s[1..];
      RunsAreJoints(t);
      if !Alnum(s[0]) {
        if Words(t) != [] { TailOfRest(s); }
      } else {
        JoinOneMore(s[0], Words(t));
        if Words(t) != [] { JoinLonger(s[0], Words(t)); }
        if t != [] {
          FirstRun(t);
          if Words(t) != [] { TailOfRest(s); } else { LastOfBlank(s); }
        }
      }
    }
  }

  // In a string without words every character belongs to a run.
  lemma {:induction false} LastOfBlank(s: string)
    requires |s| > 1 && Words(s[1..]) == []
    ensures !Alnum(s[|s| - 1])
    decreases |s|
  {
    if |s| > 2 {
      assert Words(s[1..]) == [] && !Alnum(s[1]);
      LastOfBlank(s[1..]);
      assert s[1..][|s| - 2] == s[|s| - 1];
    }
  }

  lemma FirstRun(s: string)
    requires s != []
    ensures ReplaceRuns(s, false) == if Alnum(s[0]) then ReplaceRuns(s, true) else "-" + ReplaceRuns(s, true)
  {
  }

  lemma {:induction false} JoinEnds(ws: seq<string>)
    requires AreWords(ws) && ws != []
    ensures Join(ws) != "" && Alnum(Join(ws)[0]) && Alnum(Join(ws)[|Join(ws)| - 1])
  {
    if |ws| > 1 {
      assert AreWords(ws[1..]);
      JoinEnds(ws[1..]);
    }
    assert IsWord(ws[0]);
  }

  lemma TrimLeftHyphen(x: string, before: string)
    requires (before == "" || before == "-") && x != "" && x[0] != '-'
    ensures TrimLeft(before + x) == x
  {
    if before == "-" { assert (before + x)[1..] == x; } else { assert before + x == x; }
  }

  lemma TrimRightHyphen(x: string, after: string)
    requires (after == "" || after == "-") && x != "" && x[|x| - 1] != '-'
    ensures TrimRight(x + after) == x
  {
    if after == "-" { assert (x + after)[..|x + after| - 1] == x; } else { assert x + after == x; }
  }

  lemma TrimHyphens(j: string, before: string, after: string)
    requires before == "" || before == "-"
    requires after == "" || after == "-"
    requires j != "" && j[0] != '-' && j[|j| - 1] != '-'
    ensures TrimRight(TrimLeft(before + j + after)) == j
  {
    hide TrimLeft, TrimRight;
    assert before + j + after == before + (j + after);
    assert (j + after)[0] == j[0];
    TrimLeftHyphen(j + after, before);
    TrimRightHyphen(j, after);
  }

  // Replacing, then trimming, is joining the words with hyphens.
  lemma NormaliseJoinsWords(s: string)
    ensures Normalise(s) == Join(Words(Lower(s)))
  {
    hide Join, TrimLeft, TrimRight, ReplaceRuns, Words;
    var t := Lower(s);
    var r := ReplaceRuns(t, false);
    var j := Join(Words(t));
    WordsAreWords(t);
    RunsAreJoints(t);
    if t == [] {
      EmptyString();
    } else {
      FirstRun(t);
      var before := if Alnum(t[0]) then "" else "-";
      assert r == before + j + Tail(t);
      if Words(t) == [] {
        NoWords(before);
      } else {
        JoinEnds(Words(t));
        TrimHyphens(j, before, Tail(t));
      }
    }
  }

  lemma EmptyString()
    ensures ReplaceRuns([], false) == [] && Words([]) == [] && Join([]) == "" && TrimRight(TrimLeft([])) == ""
  {
  }

  lemma NoWords(before: string)
    requires before == "" || before == "-"
    ensures TrimRight(TrimLeft(before + Join([]) + "")) == "" && Join([]) == ""
  {
    assert before + Join([]) + "" == before;
    if before == "-" { assert "-"[1..] == ""; }
  }

  // ---- When names coincide ----

  lemma {:induction false} WordThenRest(w: string, rest: string)
    requires IsWord(w) && (rest == [] || !Alnum(rest[0]))
    ensures Words(w + rest) == [w] + Words(rest)
    decreases |w|
  {
    assert (w + rest)[1..] == w[1..] + rest;
    if |w| > 1 {
      assert IsWord(w[1..]);
      WordThenRest(w[1..], rest);
      assert Words(w + rest) == [[w[0]] + w[1..]] + Words(rest);
      assert [w[0]] + w[1..] == w;
    } else {
      assert w == [w[0]] && w[1..] + rest == rest;
    }
  }

  lemma JoinOne(w: string)
    ensures Join([w]) == w
  {
  }

  lemma JoinMore(ws: seq<string>)
    requires |ws| > 1
    ensures Join(ws) == ws[0] + ("-" + Join(ws[1..]))
  {
    assert ws[0] + "-" + Join(ws[1..]) == ws[0] + ("-" + Join(ws[1..]));
  }

  // A hyphen separates.
  lemma WordsAfterHyphen(s: string)
    ensures Words("-" + s) == Words(s)
  {
    assert ("-" + s)[1..] == s;
  }

  lemma {:induction false} WordsReadBack(ws: seq<string>)
    requires AreWords(ws)
    ensures Words(Join(ws)) == ws
  {
    hide Words, Join;
    if ws == [] {
      EmptyString();
    } else {
      var rest := if |ws| == 1 then "" else "-" + Join(ws[1..]);
      if |ws| == 1 {
        assert ws == [ws[0]] && ws[0] + "" == ws[0];
        JoinOne(ws[0]);
        EmptyString();
      } else {
        JoinMore(ws);
        WordsAfterHyphen(Join(ws[1..]));
        WordsReadBack(ws[1..]);
        assert ws == [ws[0]] + ws[1..];
      }
      WordThenRest(ws[0], rest);
    }
  }

  function WordsOf(r: SecretRef): seq<string> { Words(Lower(r.String())) }

  /** Two references share a volume name exactly if their names and keys, put together and in
      lower case, consist of the same words. */
  lemma SameNameIff(r: SecretRef, q: SecretRef)
    ensures VolumeName(r) == VolumeName(q) <==> WordsOf(r) == WordsOf(q)
  {
    hide Normalise, Words, Join;
    NormaliseJoinsWords(r.String());
    NormaliseJoinsWords(q.String());
    WordsAreWords(Lower(r.String()));
    WordsAreWords(Lower(q.String()));
    WordsReadBack(WordsOf(r));
    WordsReadBack(WordsOf(q));
    if VolumeName(r) == VolumeName(q) {
      assert VolumeName(r)[|PREFIX|..] == Normalise(r.String()) && VolumeName(q)[|PREFIX|..] == Normalise(q.String());
    }
  }

  // Not even different secrets keep different names: the boundary between name and key is lost.
  lemma DifferentSecretsSameName()
    ensures VolumeName(SecretRef("a", "b-c")) == VolumeName(SecretRef("a-b", "c"))
  {
    hide Normalise;
    assert SecretRef("a", "b-c").String() == "a-b-c" == SecretRef("a-b", "c").String();
  }

  // ---- Whether the name can be used ----

  // A DNS label, section 2.3.1 of RFC 1035 as relaxed by section 2.1 of RFC 1123.
  predicate ValidLabel(s: string) {
    && 0 < |s| <= 63
    && (forall i :: 0 <= i < |s| ==> Alnum(s[i]) || s[i] == '-')
    && Alnum(s[0]) && Alnum(s[|s| - 1])
  }

  lemma {:induction false} JoinChars(ws: seq<string>, i: nat)
    requires AreWords(ws) && i < |Join(ws)|
    ensures Alnum(Join(ws)[i]) || Join(ws)[i] == '-'
    decreases |ws|
  {
    if |ws| == 1 {
      assert IsWord(ws[0]);
    } else if i < |ws[0]| {
      assert IsWord(ws[0]) && Join(ws)[i] == ws[0][i];
    } else if i > |ws[0]| {
      JoinChars(ws[1..], i - |ws[0]| - 1);
    }
  }

  /** The name is a valid label exactly if there is a letter or digit in it and it is not too long;
      neither is checked. */
  lemma ValidIff(r: SecretRef)
    ensures ValidLabel(VolumeName(r)) <==> WordsOf(r) != [] && |Join(WordsOf(r))| <= 50
  {
    hide Normalise, Words, Join;
    var j := Join(WordsOf(r));
    var v := VolumeName(r);
    NormaliseJoinsWords(r.String());
    WordsAreWords(Lower(r.String()));
    assert v == PREFIX + j && |PREFIX| == 13;
    if WordsOf(r) == [] {
      EmptyString();
      assert v == PREFIX && v[12] == '-';
    } else {
      JoinEnds(WordsOf(r));
      forall i | 0 <= i < |v| ensures Alnum(v[i]) || v[i] == '-' {
        if i < |PREFIX| { assert v[i] == PREFIX[i]; PrefixChars(i); } else { JoinChars(WordsOf(r), i - |PREFIX|); }
      }
      assert v[|v| - 1] == j[|j| - 1] && v[0] == 'p';
    }
  }

  // A secret whose name and key are single words and together longer than 49 characters has none.
  lemma LongNamesAreInvalid(name: string, key: string)
    requires IsWord(name) && IsWord(key)
    ensures ValidLabel(VolumeName(SecretRef(name, key))) <==> |name| + |key| <= 49
  {
    hide Normalise, Words, VolumeName;
    var r := SecretRef(name, key);
    assert Lower(r.String()) == r.String() by {
      forall i | 0 <= i < |r.String()| ensures LowerChar(r.String()[i]) == r.String()[i] {
        if i < |name| { assert Alnum(name[i]); } else if i > |name| { assert r.String()[i] == key[i - |name| - 1]; }
      }
    }
    assert AreWords([name, key]) && [name, key][1..] == [key];
    assert Join([name, key]) == name + "-" + key == r.String();
    WordsReadBack([name, key]);
    ValidIff(r);
  }

  // Kubernetes admits such a secret, with a name of fifty letters, but no volume of the resulting name.
  lemma AnInvalidName()
    ensures !ValidLabel(VolumeName(SecretRef(seq(50, i => 'a'), "token")))
  {
    hide VolumeName;
    LongNamesAreInvalid(seq(50, i => 'a'), "token");
  }

  lemma PrefixChars(i: nat)
    requires i < |PREFIX|
    ensures Alnum(PREFIX[i]) || PREFIX[i] == '-'
  {
  }

  // A name and a key that differ only in case share a volume name with their lower case.
  lemma CaseDoesNotMatter(r: SecretRef)
    requires forall i :: 0 <= i < |r.String()| ==> r.String()[i] as int < 128
    ensures VolumeName(r) == VolumeName(SecretRef(Lower(r.name), Lower(r.key)))
  {
    hide Normalise;
    var q := SecretRef(Lower(r.name), Lower(r.key));
    assert Lower(r.String()) == q.String();
    LowerTwice(r.String());
    NormalisesLower(r.String(), q.String());
  }

  lemma LowerTwice(s: string)
    requires forall i :: 0 <= i < |s| ==> s[i] as int < 128
    ensures Lower(Lower(s)) == Lower(s)
  {
  }

  lemma NormalisesLower(s: string, t: string)
    requires Lower(s) == Lower(t)
    ensures Normalise(s) == Normalise(t)
  {
  }
}
