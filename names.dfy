/** Attribute names: Python's `str.isupper`, `in` between strings, string order and `sorted`. */
module Names {

  /**
   * The attributes the three classes keep for their own bookkeeping
   * (`_wrapped`, the holder's `_deleted` and `default_settings`,
   * `_explicit_settings`); every other name is a setting as far as the model goes.
   */
  predicate IsSettingName(n: string)
  {
    n != "_wrapped" && n != "_deleted" && n != "default_settings" && n != "_explicit_settings"
  }

  /**
   * `Settings` records the selected module's path under this name; on
   * `SettingsHolder` it is a class attribute whose value is None.
   */
  const SETTINGS_MODULE := "SETTINGS_MODULE"

  predicate IsUpperLetter(c: char) { 'A' <= c <= 'Z' }

  predicate IsLowerLetter(c: char) { 'a' <= c <= 'z' }

  /** `s.isupper()` restricted to ASCII: some upper-case letter and no lower-case one. */
  predicate IsUpper(s: string)
  {
    && (exists i :: 0 <= i < |s| && IsUpperLetter(s[i]))
    && (forall i :: 0 <= i < |s| ==> !IsLowerLetter(s[i]))
  }

  /** `needle` occurs in `hay` starting at index `i`. */
  predicate OccursAt(needle: string, hay: string, i: int)
  {
    0 <= i && i + |needle| <= |hay| && hay[i..i + |needle|] == needle
  }

  lemma OccursShift(needle: string, hay: string)
    requires hay != []
    ensures forall i :: 0 <= i ==> (OccursAt(needle, hay[1..], i) <==> OccursAt(needle, hay, i + 1))
  {
    forall i | 0 <= i
      ensures OccursAt(needle, hay[1..], i) <==> OccursAt(needle, hay, i + 1)
    {
      if 0 <= i && i + |needle| <= |hay| - 1 {
        assert hay[1..][i..i + |needle|] == hay[i + 1..i + 1 + |needle|];
      }
    }
  }

  /** Python's `needle in hay` for two strings: a substring test. */
  function IsSubstring(needle: string, hay: string): (r: bool)
    ensures r <==> exists i :: OccursAt(needle, hay, i)
    decreases |hay|
  {
    if |needle| > |hay| then false
    else if hay[..|needle|] == needle then assert OccursAt(needle, hay, 0); true
    else
      OccursShift(needle, hay);
      assert !OccursAt(needle, hay, 0);
      assert forall j :: OccursAt(needle, hay, j) ==> OccursAt(needle, hay[1..], j - 1);
      IsSubstring(needle, hay[1..])
  }

  /** Python's `a <= b` on strings: lexicographic order of code points. */
  predicate StrLe(a: string, b: string)
  {
    a == [] || (b != [] && (a[0] < b[0] || (a[0] == b[0] && StrLe(a[1..], b[1..]))))
  }

  lemma {:induction false} StrLeRefl(a: string)
    ensures StrLe(a, a)
  {
    if a != [] {
      StrLeRefl(a[1..]);
    }
  }

  lemma {:induction false} StrLeTotal(a: string, b: string)
    ensures StrLe(a, b) || StrLe(b, a)
  {
    if a != [] && b != [] && a[0] == b[0] {
      StrLeTotal(a[1..], b[1..]);
    }
  }

  lemma {:induction false} StrLeAntisym(a: string, b: string)
    requires StrLe(a, b) && StrLe(b, a)
    ensures a == b
  {
    if a != [] && b != [] {
      StrLeAntisym(a[1..], b[1..]);
      assert a == [a[0]] + a[1..] && b == [b[0]] + b[1..];
    }
  }

  lemma {:induction false} StrLeTrans(a: string, b: string, c: string)
    requires StrLe(a, b) && StrLe(b, c)
    ensures StrLe(a, c)
  {
    if a != [] && b != [] && c != [] && a[0] == b[0] && b[0] == c[0] {
      StrLeTrans(a[1..], b[1..], c[1..]);
    }
  }

  /** `m` is the first element of `s` in string order. */
  predicate IsLeast(m: string, s: set<string>)
  {
    m in s && forall x {:trigger StrLe(m, x)} :: x in s ==> StrLe(m, x)
  }

  /** Every finite non-empty set of names has a first element, which is what `sorted` yields first. */
  lemma {:induction false} LeastExists(s: set<string>)
    requires s != {}
    ensures exists m :: IsLeast(m, s)
    decreases s
  {
    var x :| x in s;
    if s == {x} {
      StrLeRefl(x);
      assert IsLeast(x, s);
    } else {
      LeastExists(s - {x});
      var m :| IsLeast(m, s - {x});
      StrLeTotal(x, m);
      if StrLe(x, m) {
        forall y | y in s
          ensures StrLe(x, y)
        {
          if y == x { StrLeRefl(x); } else { StrLeTrans(x, m, y); }
        }
        assert IsLeast(x, s);
      } else {
        assert IsLeast(m, s);
      }
    }
  }

  /** The first element is unique. */
  lemma LeastUnique(a: string, b: string, s: set<string>)
    requires IsLeast(a, s) && IsLeast(b, s)
    ensures a == b
  {
    StrLeAntisym(a, b);
  }

  /** The first element of a non-empty set of names. */
  ghost function Least(s: set<string>): (m: string)
    requires s != {}
    ensures IsLeast(m, s)
  {
    LeastExists(s);
    var m :| IsLeast(m, s);
    m
  }

  /** In ascending string order, as `sorted` returns a list of names. */
  ghost predicate Sorted(s: seq<string>)
  {
    forall i, j :: 0 <= i < j < |s| ==> StrLe(s[i], s[j])
  }

  /** Places `x` in the sorted list `s`, keeping it sorted and losing nothing. */
  function Insert(s: seq<string>, x: string): (r: seq<string>)
    requires Sorted(s)
    ensures Sorted(r)
    ensures multiset(r) == multiset(s) + multiset{x}
  {
    if s == [] then [x]
    else if StrLe(x, s[0]) then
      assert forall j :: 0 <= j < |s| ==> StrLe(x, s[j]) by {
        forall j | 0 <= j < |s| ensures StrLe(x, s[j]) {
          if j > 0 { StrLeTrans(x, s[0], s[j]); }
        }
      }
      [x] + s
    else
      StrLeTotal(x, s[0]);
      var rest := Insert(s[1..], x);
      assert s == [s[0]] + s[1..];
      assert forall e :: e in multiset(rest) ==> StrLe(s[0], e) by {
        forall e | e in multiset(rest) ensures StrLe(s[0], e) {
          assert e == x || e in s[1..];
        }
      }
      [s[0]] + rest
  }

  /** `sorted(names + elements of extra)`: every element of `extra` inserted into `names`. */
  method InsertEach(names: seq<string>, extra: set<string>) returns (r: seq<string>)
    requires Sorted(names)
    ensures Sorted(r)
    ensures multiset(r) == multiset(names) + multiset(extra)
  {
    r := names;
    var rest := extra;
    while rest != {}
      invariant rest <= extra
      invariant Sorted(r)
      invariant multiset(r) + multiset(rest) == multiset(names) + multiset(extra)
      decreases rest
    {
      var n :| n in rest;
      assert multiset(rest) == multiset(rest - {n}) + multiset{n};
      r := Insert(r, n);
      rest := rest - {n};
    }
  }
}
