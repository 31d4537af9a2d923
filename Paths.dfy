/** How the merger derives a strategy's name from the path of its source file
    (`FunctionMerger.get_strategy_name`): the path is split at every `/` and
    the next-to-last component is taken. */
module Paths {
  import opened Ast

  const Sep: char := '/'

  /** Python's `s.split(sep)`: the maximal runs between separators, in order,
      including empty ones. */
  function Split(s: string, sep: char): (parts: seq<string>)
    ensures |parts| >= 1
    ensures forall i :: 0 <= i < |parts| ==> sep !in parts[i]
    ensures |parts| == 1 <==> sep !in s
  {
    if |s| == 0 then [""]
    else
      var rest := Split(s[1..], sep);
      assert sep in s <==> s[0] == sep || sep in s[1..];
      if s[0] == sep then [""] + rest
      else [[s[0]] + rest[0]] + rest[1..]
  }

  /** Python's `sep.join(parts)`. */
  function Join(parts: seq<string>, sep: char): string
    requires |parts| >= 1
  {
    if |parts| == 1 then parts[0] else parts[0] + [sep] + Join(parts[1..], sep)
  }

  /** `file_path.split('/')[-2]`; `None` where Python raises `IndexError`
      because the path has no `/`. */
  function StrategyName(path: string): (r: Option<string>)
    ensures r.None? <==> Sep !in path
    ensures r.Some? ==> Sep !in r.value
  {
    var parts := Split(path, Sep);
    if |parts| < 2 then None else Some(parts[|parts| - 2])
  }

  /** Splitting a string that has no separator gives that string alone. */
  lemma {:induction false} SplitNoSep(a: string, sep: char)
    requires sep !in a
    ensures Split(a, sep) == [a]
  {
    if |a| > 0 {
      SplitNoSep(a[1..], sep);
      assert [a[0]] + a[1..] == a;
    }
  }

  /** A separator-free prefix followed by a separator becomes its own component. */
  lemma {:induction false} SplitAfterComponent(a: string, sep: char, rest: string)
    requires sep !in a
    ensures Split(a + [sep] + rest, sep) == [a] + Split(rest, sep)
  {
    if |a| == 0 {
      assert a + [sep] + rest == [sep] + rest;
      assert ([sep] + rest)[1..] == rest;
    } else {
      SplitAfterComponent(a[1..], sep, rest);
      assert (a + [sep] + rest)[1..] == a[1..] + [sep] + rest;
      assert [a[0]] + a[1..] == a;
    }
  }

  /** `split` undoes `join` when no component contains the separator. */
  lemma {:induction false} SplitJoin(parts: seq<string>, sep: char)
    requires |parts| >= 1
    requires forall i :: 0 <= i < |parts| ==> sep !in parts[i]
    ensures Split(Join(parts, sep), sep) == parts
  {
    if |parts| == 1 {
      SplitNoSep(parts[0], sep);
    } else {
      SplitJoin(parts[1..], sep);
      SplitAfterComponent(parts[0], sep, Join(parts[1..], sep));
      assert [parts[0]] + parts[1..] == parts;
    }
  }

  /** `join` undoes `split`. */
  lemma {:induction false} JoinSplit(s: string, sep: char)
    ensures Join(Split(s, sep), sep) == s
  {
    if |s| > 0 {
      JoinSplit(s[1..], sep);
      var rest := Split(s[1..], sep);
      if s[0] == sep {
        assert ([""] + rest)[1..] == rest;
        assert [s[0]] + s[1..] == s;
      } else {
        var parts := [[s[0]] + rest[0]] + rest[1..];
        if |rest| == 1 {
          assert [s[0]] + s[1..] == s;
        } else {
          assert parts[1..] == rest[1..];
          assert [s[0]] + s[1..] == s;
        }
      }
    }
  }

  /** The merger reads `strategies/<name>/__init__.py`; the name it recovers is
      exactly `<name>`. */
  lemma StrategyNameOfStrategyFile(name: string)
    requires Sep !in name
    ensures StrategyName("strategies/" + name + "/__init__.py") == Some(name)
  {
    var parts := ["strategies", name, "__init__.py"];
    assert parts[1..] == [name, "__init__.py"];
    assert parts[1..][1..] == ["__init__.py"];
    assert Join(parts[1..], Sep) == name + "/__init__.py";
    assert Join(parts, Sep) == "strategies/" + name + "/__init__.py";
    SplitJoin(parts, Sep);
  }
}
