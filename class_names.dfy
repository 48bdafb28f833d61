/**
  `cn(...classes)` of `shared/utils/cn.ts`: the class names that are truthy
  joined with single spaces.
*/
module ClassNames {
  import opened Text

  /** An argument of `cn`: a string, or `undefined`, `null` or `false`. */
  datatype ClassValue = Name(name: string) | Undefined | Null | False

  /** `Boolean(c)`: a non-empty string; `""`, `undefined`, `null` and
      `false` are falsy. */
  predicate Truthy(c: ClassValue) {
    c.Name? && c.name != []
  }

  /** `classes.filter(Boolean)`, as the strings it keeps. */
  function Kept(classes: seq<ClassValue>): (kept: seq<string>)
    ensures |kept| <= |classes|
    ensures forall i :: 0 <= i < |kept| ==> kept[i] != [] && Name(kept[i]) in classes
  {
    if classes == [] then []
    else (if Truthy(classes[0]) then [classes[0].name] else []) + Kept(classes[1..])
  }

  /** `cn(...classes)`. */
  function Cn(classes: seq<ClassValue>): (r: string)
    ensures r == [] <==> Kept(classes) == []
    ensures |Kept(classes)| == 1 ==> r == Kept(classes)[0]
    ensures |Kept(classes)| >= 2 ==> ' ' in r
  {
    var kept := Kept(classes);
    if |kept| >= 2 then
      assert Join(kept, ' ') == kept[0] + [' '] + Join(kept[1..], ' ');
      assert Join(kept, ' ')[|kept[0]|] == ' ';
      Join(kept, ' ')
    else
      Join(kept, ' ')
  }

  /** The filter keeps the order of its input: filtering two runs of
      arguments one after the other is filtering each. */
  lemma {:induction false} KeptAppend(a: seq<ClassValue>, b: seq<ClassValue>)
    ensures Kept(a + b) == Kept(a) + Kept(b)
  {
    if a == [] {
      assert a + b == b;
    } else {
      assert (a + b)[0] == a[0] && (a + b)[1..] == a[1..] + b;
      KeptAppend(a[1..], b);
    }
  }

  /** A truthy argument is kept, a falsy one is dropped. */
  lemma KeptOne(c: ClassValue)
    ensures Kept([c]) == if Truthy(c) then [c.name] else []
  {
    assert [c][1..] == [];
  }

  /** Nothing is kept exactly when every argument is falsy. */
  lemma {:induction false} KeptNone(classes: seq<ClassValue>)
    ensures Kept(classes) == [] <==> forall i :: 0 <= i < |classes| ==> !Truthy(classes[i])
  {
    if classes != [] {
      KeptNone(classes[1..]);
      assert forall i :: 1 <= i < |classes| ==> classes[i] == classes[1..][i - 1];
    }
  }

  /** `cn()` and `cn` of falsy arguments only are `""`, and only they. */
  lemma CnEmpty(classes: seq<ClassValue>)
    ensures Cn(classes) == [] <==> forall i :: 0 <= i < |classes| ==> !Truthy(classes[i])
  {
    KeptNone(classes);
    var kept := Kept(classes);
    if kept != [] {
      if |kept| > 1 {
        assert Join(kept, ' ') == kept[0] + [' '] + Join(kept[1..], ' ');
      }
      assert |Join(kept, ' ')| >= |kept[0]| > 0;
    }
  }

  /** A single truthy argument comes back unchanged. */
  lemma CnSingle(s: string)
    requires s != []
    ensures Cn([Name(s)]) == s
  {
    KeptOne(Name(s));
  }

  /** Two runs of arguments that each keep something are joined with
      exactly one space between them. */
  lemma CnAppend(a: seq<ClassValue>, b: seq<ClassValue>)
    requires Kept(a) != [] && Kept(b) != []
    ensures Cn(a + b) == Cn(a) + " " + Cn(b)
  {
    KeptAppend(a, b);
    JoinAppend(Kept(a), Kept(b), ' ');
  }

  /** When no kept class contains a space, splitting the result on spaces
      gives back exactly the kept classes, in order: one space between
      neighbours, none before the first or after the last. */
  lemma CnSplit(classes: seq<ClassValue>)
    requires Kept(classes) != []
    requires forall i :: 0 <= i < |classes| && classes[i].Name? ==> ' ' !in classes[i].name
    ensures Split(Cn(classes), ' ') == Kept(classes)
  {
    var kept := Kept(classes);
    forall i | 0 <= i < |kept|
      ensures ' ' !in kept[i]
    {
      assert Name(kept[i]) in classes;
    }
    SplitJoin(kept, ' ');
  }
}
