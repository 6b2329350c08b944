/** Brace nesting of object-literal text.

    Net(s) is the number of '{' minus the number of '}' in s, and MinNet(s)
    the lowest net over the prefixes of s.  A text is balanced when its net is
    zero and no prefix of it closes more braces than it has opened, which is
    what a stack-based brace scanner accepts. */
module Braces {

  function Delta(c: char): int {
    if c == '{' then 1 else if c == '}' then -1 else 0
  }

  /** Opening braces minus closing braces. */
  function Net(s: string): int {
    if s == [] then 0 else Net(s[..|s| - 1]) + Delta(s[|s| - 1])
  }

  function Min(a: int, b: int): int {
    if a <= b then a else b
  }

  /** The lowest net of any prefix of s, the empty prefix included. */
  function MinNet(s: string): int {
    if s == [] then 0 else Min(MinNet(s[..|s| - 1]), Net(s))
  }

  predicate NoBraces(s: string) {
    forall i :: 0 <= i < |s| ==> s[i] != '{' && s[i] != '}'
  }

  predicate Balanced(s: string) {
    Net(s) == 0 && MinNet(s) >= 0
  }

  lemma {:induction false} NetConcat(a: string, b: string)
    ensures Net(a + b) == Net(a) + Net(b)
  {
    if b != [] {
      var b' := b[..|b| - 1];
      assert (a + b)[..|a + b| - 1] == a + b';
      NetConcat(a, b');
    } else {
      assert a + b == a;
    }
  }

  lemma {:induction false} NoBracesNet(s: string)
    requires NoBraces(s)
    ensures Net(s) == 0 && MinNet(s) == 0
  {
    if s != [] {
      NoBracesNet(s[..|s| - 1]);
    }
  }

  lemma NoBracesConcat(a: string, b: string)
    requires NoBraces(a) && NoBraces(b)
    ensures NoBraces(a + b)
  {
    assert forall i :: 0 <= i < |a + b| ==> (a + b)[i] == if i < |a| then a[i] else b[i - |a|];
  }

  lemma NoBracesBalanced(s: string)
    requires NoBraces(s)
    ensures Balanced(s)
  {
    NoBracesNet(s);
  }

  /** The lowest prefix net of a + b is the lower of a's and of b's shifted by Net(a). */
  lemma {:induction false} MinNetConcat(a: string, b: string)
    ensures MinNet(a + b) == Min(MinNet(a), Net(a) + MinNet(b))
  {
    if b == [] {
      assert a + b == a;
    } else {
      var b' := b[..|b| - 1];
      assert (a + b)[..|a + b| - 1] == a + b';
      MinNetConcat(a, b');
      NetConcat(a, b);
    }
  }

  lemma BalancedConcat(a: string, b: string)
    requires Balanced(a) && Balanced(b)
    ensures Balanced(a + b)
  {
    NetConcat(a, b);
    MinNetConcat(a, b);
  }

  /** One pair of braces around balanced text is balanced. */
  lemma BracedBalanced(inner: string)
    requires Balanced(inner)
    ensures Balanced("{" + inner + "}")
  {
    assert "{"[..0] == [] && "}"[..0] == [];
    assert Net("{") == 1 && MinNet("{") == 0;
    assert Net("}") == -1 && MinNet("}") == -1;
    NetConcat("{", inner);
    MinNetConcat("{", inner);
    NetConcat("{" + inner, "}");
    MinNetConcat("{" + inner, "}");
  }

  /** Balanced text, one brace pair around balanced text, balanced text. */
  lemma BalancedWrap(pre: string, inner: string, post: string)
    requires Balanced(pre) && Balanced(inner) && Balanced(post)
    ensures Balanced(pre + "{" + inner + "}" + post)
  {
    var braced := "{" + inner + "}";
    BracedBalanced(inner);
    BalancedConcat(pre, braced);
    BalancedConcat(pre + braced, post);
    assert pre + "{" + inner + "}" + post == pre + braced + post;
  }
}
