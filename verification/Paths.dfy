// How a path is joined and cleaned: no empty or dot elements, and two dots take the last one back.
module Paths {

  const DOT := "."
  const DOTS := ".."

  // Where the first slash is, or the length of the string.
  function FirstSlash(s: string): (i: nat)
    ensures i <= |s| && (i < |s| ==> s[i] == '/') && forall j :: 0 <= j < i ==> s[j] != '/'
  {
    if s == [] then 0 else if s[0] == '/' then 0 else 1 + FirstSlash(s[1..])
  }

  function Split(s: string): seq<string>
    decreases |s|
  {
    var i := FirstSlash(s);
    if i == |s| then [s] else [s[..i]] + Split(s[i + 1..])
  }

  // The elements of a rooted path, one after the other.
  function Resolve(stack: seq<string>, elements: seq<string>): seq<string>
    decreases |elements|
  {
    if elements == [] then stack
    else
      var e := elements[0];
      Resolve(if e == "" || e == DOT then stack
              else if e == DOTS then (if stack == [] then [] else stack[..|stack| - 1])
              else stack + [e],
              elements[1..])
  }

  function Render(stack: seq<string>): string {
    if stack == [] then "" else Render(stack[..|stack| - 1]) + "/" + stack[|stack| - 1]
  }

  function Join(dir: seq<string>, name: string): string {
    var stack := Resolve(dir, Split(name));
    if stack == [] then "/" else Render(stack)
  }

  predicate SlashFree(s: string) { '/' !in s }

  lemma SplitPlain(s: string)
    requires SlashFree(s)
    ensures Split(s) == [s]
  {
    assert forall j :: 0 <= j < |s| ==> s[j] in s;
  }

  lemma SplitFirst(s: string, rest: string)
    requires SlashFree(s)
    ensures Split(s + "/" + rest) == [s] + Split(rest)
  {
    var t := s + "/" + rest;
    var i := FirstSlash(t);
    assert t[|s|] == '/';
    assert forall j :: 0 <= j < |s| ==> t[j] == s[j] && s[j] in s;
    assert i == |s| && t[..i] == s && t[i + 1..] == rest;
  }

  // An ordinary name is just appended.
  lemma JoinPlain(dir: seq<string>, s: string)
    requires SlashFree(s) && s != "" && s != DOT && s != DOTS
    ensures Join(dir, s) == Render(dir) + "/" + s
  {
    SplitPlain(s);
    assert [s][1..] == [] && Resolve(dir, [s]) == dir + [s];
    assert (dir + [s])[..|dir|] == dir;
  }

  lemma RenderMore(stack: seq<string>, e: string)
    ensures Render(stack + [e]) == Render(stack) + "/" + e
  {
    assert (stack + [e])[..|stack|] == stack;
  }

  // Two dots take back one element.
  lemma ResolveDots(stack: seq<string>, e: string, rest: seq<string>)
    ensures Resolve(stack + [e], [DOTS] + rest) == Resolve(stack, rest)
  {
    assert ([DOTS] + rest)[1..] == rest && (stack + [e])[..|stack|] == stack;
  }

  lemma ResolvePlain(stack: seq<string>, e: string, rest: seq<string>)
    requires e != "" && e != DOT && e != DOTS
    ensures Resolve(stack, [e] + rest) == Resolve(stack + [e], rest)
  {
    assert ([e] + rest)[1..] == rest;
  }

  // Empty elements and single dots are skipped, and nothing leads above the root.
  lemma ResolveSkips(stack: seq<string>, e: string, rest: seq<string>)
    requires e == "" || e == "."
    ensures Resolve(stack, [e] + rest) == Resolve(stack, rest)
  {
    assert ([e] + rest)[1..] == rest;
  }

  lemma RootIsTheEnd(dir: seq<string>)
    requires |dir| <= 1
    ensures Join(dir, "..") == "/"
  {
    SplitPlain("..");
    assert [".."][1..] == [];
  }
}
