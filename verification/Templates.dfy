/** Message templates: the backend's substitution and the frontend's list of variables, two uses of one pattern. */
module Templates {
  import opened Texts

  predicate IsWordChar(c: char) {
    'a' <= c <= 'z' || 'A' <= c <= 'Z' || '0' <= c <= '9' || c == '_'
  }

  function WordLength(t: string): (n: nat)
    ensures n <= |t|
  {
    if t == [] || !IsWordChar(t[0]) then 0 else 1 + WordLength(t[1..])
  }

  /** The length of the name when a placeholder starts the text, 0 otherwise. */
  function NameLength(t: string): (n: nat)
    ensures n > 0 ==> n + 2 <= |t|
  {
    if t == [] || t[0] != '{' then 0
    else
      var n := WordLength(t[1..]);
      if n > 0 && n + 1 < |t| && t[n + 1] == '}' then n else 0
  }

  /** The text of the placeholder's name. */
  function Name(t: string): string
    requires NameLength(t) > 0
  {
    t[1..NameLength(t) + 1]
  }

  /** The text after the placeholder. */
  function Rest(t: string): (r: string)
    requires NameLength(t) > 0
    ensures |r| < |t|
  {
    t[NameLength(t) + 2..]
  }

  /** The text of the placeholder itself. */
  function Placeholder(t: string): string
    requires NameLength(t) > 0
  {
    t[..NameLength(t) + 2]
  }

  /** One pass from left to right; the text put in is not looked at again. */
  function Interpolate(t: string, variables: map<string, string>): string
    decreases |t|
  {
    if t == [] then []
    else if NameLength(t) > 0 then
      (if Name(t) in variables then variables[Name(t)] else Placeholder(t)) + Interpolate(Rest(t), variables)
    else [t[0]] + Interpolate(t[1..], variables)
  }

  /** Every placeholder name, in order, with repetitions. */
  function Matches(t: string): seq<string>
    decreases |t|
  {
    if t == [] then []
    else if NameLength(t) > 0 then [Name(t)] + Matches(Rest(t))
    else Matches(t[1..])
  }

  /** What a Set built from the sequence iterates over: first occurrences, in order. */
  function Deduplicated(names: seq<string>): seq<string> {
    if names == [] then []
    else
      var front := Deduplicated(names[..|names| - 1]);
      var last := names[|names| - 1];
      if last in front then front else front + [last]
  }

  function ExtractVariables(t: string): seq<string> {
    Deduplicated(Matches(t))
  }

  predicate NoRepeats(names: seq<string>) {
    forall i, j :: 0 <= i < j < |names| ==> names[i] != names[j]
  }

  lemma {:induction false} DeduplicatedKeepsNames(names: seq<string>)
    ensures forall n :: n in Deduplicated(names) <==> n in names
    ensures NoRepeats(Deduplicated(names))
  {
    if names != [] {
      DeduplicatedKeepsNames(names[..|names| - 1]);
      assert names == names[..|names| - 1] + [names[|names| - 1]];
    }
  }

  /** `a` occurs among the names before `b` does. */
  predicate SeenFirst(names: seq<string>, a: string, b: string) {
    exists k :: 0 <= k < |names| && names[k] == a && b !in names[..k]
  }

  /** The list is in the order in which the names first occur. */
  lemma {:induction false} ListedInOrder(names: seq<string>, i: nat, j: nat)
    requires i < j < |Deduplicated(names)|
    ensures SeenFirst(names, Deduplicated(names)[i], Deduplicated(names)[j])
  {
    var n := |names| - 1;
    var front := Deduplicated(names[..n]);
    var a, b := Deduplicated(names)[i], Deduplicated(names)[j];
    DeduplicatedKeepsNames(names[..n]);
    if j < |front| {
      ListedInOrder(names[..n], i, j);
      var k :| 0 <= k < n && names[..n][k] == a && b !in names[..n][..k];
      assert names[..n][..k] == names[..k] && names[k] == a;
    } else {
      assert a in names[..n] && b !in names[..n];
      var k :| 0 <= k < n && names[..n][k] == a;
      assert names[k] == a && names[..k] == names[..n][..k];
    }
  }

  /** Two environments that agree on the extracted names give the same text. */
  lemma {:induction false} DependsOnlyOnVariables(t: string, a: map<string, string>, b: map<string, string>)
    requires forall n :: n in Matches(t) ==> (n in a <==> n in b) && (n in a ==> a[n] == b[n])
    ensures Interpolate(t, a) == Interpolate(t, b)
    decreases |t|
  {
    if t != [] {
      if NameLength(t) > 0 {
        assert Name(t) in Matches(t);
        DependsOnlyOnVariables(Rest(t), a, b);
      } else {
        DependsOnlyOnVariables(t[1..], a, b);
      }
    }
  }

  lemma PlaceholderThenRest(t: string)
    requires NameLength(t) > 0
    ensures Placeholder(t) + Rest(t) == t
  {
  }

  /** With none of its variables bound a template is sent as it is. */
  lemma {:induction false} UnboundIsUnchanged(t: string, variables: map<string, string>)
    requires forall n :: n in Matches(t) ==> n !in variables
    ensures Interpolate(t, variables) == t
    decreases |t|
  {
    if t != [] {
      if NameLength(t) > 0 {
        assert Matches(t)[0] == Name(t) && Matches(t)[1..] == Matches(Rest(t));
        UnboundIsUnchanged(Rest(t), variables);
        PlaceholderThenRest(t);
      } else {
        UnboundIsUnchanged(t[1..], variables);
        assert [t[0]] + t[1..] == t;
      }
    }
  }

  // ---- what a template means, piece by piece ----

  /** A letter, a digit or an underscore. */
  predicate IsNameChar(c: char) {
    c == '_' || ('0' <= c <= '9') || ('a' <= c <= 'z') || ('A' <= c <= 'Z')
  }

  predicate IsWord(n: string) {
    n != [] && forall i :: 0 <= i < |n| ==> IsNameChar(n[i])
  }

  lemma {:induction false} WordThenBrace(n: string, rest: string)
    requires forall i :: 0 <= i < |n| ==> IsWordChar(n[i])
    ensures WordLength(n + ("}" + rest)) == |n|
  {
    var t := n + ("}" + rest);
    if n == [] {
      assert t[0] == '}';
    } else {
      WordThenBrace(n[1..], rest);
      assert t[1..] == n[1..] + ("}" + rest);
    }
  }

  /** A placeholder in front becomes its value, or stays as it is when the name is not bound. */
  lemma PlaceholderMeans(n: string, rest: string, variables: map<string, string>)
    requires IsWord(n)
    ensures Interpolate("{" + (n + ("}" + rest)), variables)
         == (if n in variables then variables[n] else "{" + n + "}") + Interpolate(rest, variables)
  {
    var inner := n + ("}" + rest);
    var t := "{" + inner;
    WordThenBrace(n, rest);
    assert t[1..] == inner && inner[|n|] == '}' && t[|n| + 1] == '}';
    assert NameLength(t) == |n|;
    assert Name(t) == n && Rest(t) == rest && Placeholder(t) == "{" + n + "}";
  }

  lemma {:induction false} WordEnds(n: string, rest: string)
    requires exists i :: 0 <= i < |n| && !IsNameChar(n[i])
    ensures var w := WordLength(n + ("}" + rest)); w < |n| && !IsNameChar(n[w])
  {
    var t := n + ("}" + rest);
    if IsNameChar(n[0]) {
      var i :| 0 <= i < |n| && !IsNameChar(n[i]);
      assert n[1..][i - 1] == n[i];
      WordEnds(n[1..], rest);
      assert t[1..] == n[1..] + ("}" + rest);
    }
  }

  /** Braces around anything but a name, and an opening brace without a closing one, are copied. */
  lemma NoPlaceholder(n: string, rest: string, variables: map<string, string>)
    requires '}' !in n && !IsWord(n)
    ensures Interpolate("{" + (n + ("}" + rest)), variables) == "{" + Interpolate(n + ("}" + rest), variables)
    ensures Interpolate("{" + n, variables) == "{" + Interpolate(n, variables)
  {
    var inner := n + ("}" + rest);
    assert ("{" + inner)[1..] == inner && ("{" + n)[1..] == n;
    if n != [] { WordEnds(n, rest); }
  }

  /** Text without an opening brace is copied. */
  lemma {:induction false} PlainTextMeans(plain: string, rest: string, variables: map<string, string>)
    requires '{' !in plain
    ensures Interpolate(plain + rest, variables) == plain + Interpolate(rest, variables)
  {
    if plain == [] {
      assert plain + rest == rest;
    } else {
      var first, others := [plain[0]], plain[1..];
      assert plain == first + others;
      PlainTextMeans(others, rest, variables);
      assert (first + (others + rest))[1..] == others + rest;
      Associative(first, others, rest);
      Associative(first, others, Interpolate(rest, variables));
    }
  }

  /** How many characters the placeholders of one name take up. */
  function Taken(names: seq<string>, n: string): nat {
    if names == [] then 0 else (if names[0] == n then |n| + 2 else 0) + Taken(names[1..], n)
  }

  lemma {:induction false} TakenIfPresent(names: seq<string>, n: string)
    ensures Taken(names, n) > 0 <==> n in names
  {
    if names != [] {
      TakenIfPresent(names[1..], n);
      assert n in names <==> n == names[0] || n in names[1..];
    }
  }

  /** Binding one name to the empty text removes each of its placeholders and nothing else. */
  lemma {:induction false} ErasedLength(t: string, n: string)
    ensures |Interpolate(t, map[n := ""])| == |t| - Taken(Matches(t), n)
    decreases |t|
  {
    if t != [] {
      if NameLength(t) > 0 {
        ErasedLength(Rest(t), n);
        assert Matches(t)[1..] == Matches(Rest(t));
        assert |Name(t)| + 2 + |Rest(t)| == |t|;
      } else {
        ErasedLength(t[1..], n);
      }
    }
  }

  predicate Changes(t: string, variables: map<string, string>, n: string, value: string) {
    Interpolate(t, variables) != Interpolate(t, variables[n := value])
  }

  /**
    The frontend lists exactly the names the backend would replace: a name is listed if and only if some way of binding
    it changes the message.
   */
  lemma ListedExactlyWhenReplaced(t: string, n: string)
    ensures n in ExtractVariables(t) <==> exists variables, value :: Changes(t, variables, n, value)
  {
    DeduplicatedKeepsNames(Matches(t));
    if n in Matches(t) {
      var none: map<string, string> := map[];
      TakenIfPresent(Matches(t), n);
      UnboundIsUnchanged(t, none);
      ErasedLength(t, n);
      assert none[n := ""] == map[n := ""] && Changes(t, none, n, "");
    } else {
      forall variables, value ensures !Changes(t, variables, n, value) {
        DependsOnlyOnVariables(t, variables, variables[n := value]);
      }
    }
  }

  /** The list has no repetitions, and its names are all the output depends on. */
  lemma VariablesAreEnough(t: string, a: map<string, string>, b: map<string, string>)
    requires forall k :: 0 <= k < |ExtractVariables(t)| ==>
      var n := ExtractVariables(t)[k]; (n in a <==> n in b) && (n in a ==> a[n] == b[n])
    ensures Interpolate(t, a) == Interpolate(t, b)
    ensures NoRepeats(ExtractVariables(t))
    ensures forall i, j :: 0 <= i < j < |ExtractVariables(t)| ==>
              SeenFirst(Matches(t), ExtractVariables(t)[i], ExtractVariables(t)[j])
  {
    DeduplicatedKeepsNames(Matches(t));
    forall i, j | 0 <= i < j < |ExtractVariables(t)|
      ensures SeenFirst(Matches(t), ExtractVariables(t)[i], ExtractVariables(t)[j])
    {
      ListedInOrder(Matches(t), i, j);
    }
    forall n | n in Matches(t) ensures (n in a <==> n in b) && (n in a ==> a[n] == b[n]) {
      assert n in ExtractVariables(t);
    }
    DependsOnlyOnVariables(t, a, b);
  }
}
