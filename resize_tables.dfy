/** The resize name tables of pepedd/nodes/utils/constants.py and the name
    check of pepedd/nodes/utils/validate.py. The filter and algorithm maps are
    read off the attributes of two classes of the image library; this model
    takes those attribute lists as input. */
module ResizeTables {

  import opened Wrappers

  /** An attribute name as `dir()` lists it: never empty. */
  type Ident = s: string | |s| > 0 witness "a"

  /** One attribute: its name and whether its value is callable. */
  datatype Attr = Attr(name: Ident, callable: bool)

  /** `str.lower()` on ASCII letters. */
  function LowerChar(c: char): (r: char)
    ensures 'A' <= c <= 'Z' ==> r as int == c as int + 32
    ensures !('A' <= c <= 'Z') ==> r == c
  {
    if 'A' <= c <= 'Z' then (c as int + 32) as char else c
  }

  function Lower(s: string): (r: string)
    ensures |r| == |s| && forall i :: 0 <= i < |s| ==> r[i] == LowerChar(s[i])
  {
    if s == [] then [] else [LowerChar(s[0])] + Lower(s[1..])
  }

  /** `not attr.startswith("_")`. */
  predicate Public(a: Attr) { a.name[0] != '_' }

  /** `RESIZE_FILTER_MAP`: lower-cased public, non-callable attributes, the
      value being the attribute (here its name); a later attribute with the
      same lower-cased name replaces an earlier one. */
  function FilterMapOf(attrs: seq<Attr>): (m: map<string, string>)
    ensures forall k :: k in m ==> Lower(m[k]) == k
  {
    if attrs == [] then map[]
    else
      var a := attrs[|attrs| - 1];
      var m := FilterMapOf(attrs[..|attrs| - 1]);
      if Public(a) && !a.callable then m[Lower(a.name) := a.name] else m
  }

  /** `RESIZE_ALG_MAP`: public attributes keyed by the first letter of their
      lower-cased name; the last attribute with a given letter wins. */
  function AlgMapOf(attrs: seq<Attr>): (m: map<string, string>)
    ensures forall k :: k in m ==> |k| == 1 && |m[k]| > 0 && k[0] == LowerChar(m[k][0])
  {
    if attrs == [] then map[]
    else
      var a := attrs[|attrs| - 1];
      var m := AlgMapOf(attrs[..|attrs| - 1]);
      if Public(a) then m[[Lower(a.name)[0]] := a.name] else m
  }

  /** The filter keys are exactly the lower-cased names of the public
      non-callable attributes. */
  lemma {:induction false} FilterMapKeys(attrs: seq<Attr>, k: string)
    ensures k in FilterMapOf(attrs) <==>
              exists i :: 0 <= i < |attrs| && Public(attrs[i]) && !attrs[i].callable && Lower(attrs[i].name) == k
  {
    if attrs != [] {
      var init := attrs[..|attrs| - 1];
      FilterMapKeys(init, k);
      if exists i :: 0 <= i < |attrs| && Public(attrs[i]) && !attrs[i].callable && Lower(attrs[i].name) == k {
        var i :| 0 <= i < |attrs| && Public(attrs[i]) && !attrs[i].callable && Lower(attrs[i].name) == k;
        if i < |init| {
          assert init[i] == attrs[i];
        }
      }
      if exists i :: 0 <= i < |init| && Public(init[i]) && !init[i].callable && Lower(init[i].name) == k {
        var i :| 0 <= i < |init| && Public(init[i]) && !init[i].callable && Lower(init[i].name) == k;
        assert attrs[i] == init[i];
      }
    }
  }

  /** The algorithm keys are exactly the lower-cased first letters of the
      public attributes. */
  lemma {:induction false} AlgMapKeys(attrs: seq<Attr>, k: string)
    ensures k in AlgMapOf(attrs) <==>
              exists i :: 0 <= i < |attrs| && Public(attrs[i]) && k == [LowerChar(attrs[i].name[0])]
  {
    if attrs != [] {
      var init := attrs[..|attrs| - 1];
      AlgMapKeys(init, k);
      if exists i :: 0 <= i < |attrs| && Public(attrs[i]) && k == [LowerChar(attrs[i].name[0])] {
        var i :| 0 <= i < |attrs| && Public(attrs[i]) && k == [LowerChar(attrs[i].name[0])];
        if i < |init| {
          assert init[i] == attrs[i];
        }
      }
      if exists i :: 0 <= i < |init| && Public(init[i]) && k == [LowerChar(init[i].name[0])] {
        var i :| 0 <= i < |init| && Public(init[i]) && k == [LowerChar(init[i].name[0])];
        assert attrs[i] == init[i];
      }
    }
  }

  /** `RESIZE_LIST` from the key sets: "nearest" for the nearest-neighbour
      key "n", and `"<alg>_<filter>"` for every other algorithm key and every
      filter key. */
  function ResizeListOf(algs: set<string>, filters: set<string>): set<string>
  {
    (if "n" in algs then {"nearest"} else {})
    + set a, f | a in algs && a != "n" && f in filters :: a + "_" + f
  }

  /** One more algorithm key adds "nearest" or its row of names. */
  lemma ResizeListAdd(algs: set<string>, filters: set<string>, a: string)
    ensures ResizeListOf(algs + {a}, filters) ==
              ResizeListOf(algs, filters) + (if a == "n" then {"nearest"} else set f | f in filters :: a + "_" + f)
  {
    var lhs := ResizeListOf(algs + {a}, filters);
    var rhs := ResizeListOf(algs, filters) + (if a == "n" then {"nearest"} else set f | f in filters :: a + "_" + f);
    forall x | x in lhs ensures x in rhs {
      if x != "nearest" || "n" !in algs + {a} {
        var a', f' :| a' in algs + {a} && a' != "n" && f' in filters && a' + "_" + f' == x;
        if a' != a {
          assert x in set b, g | b in algs && b != "n" && g in filters :: b + "_" + g;
        }
      }
    }
    forall x | x in rhs ensures x in lhs {
      if x != "nearest" {
        if x in ResizeListOf(algs, filters) {
          var a', f' :| a' in algs && a' != "n" && f' in filters && a' + "_" + f' == x;
          assert a' in algs + {a};
        } else {
          var f' :| f' in filters && a + "_" + f' == x;
          assert a in algs + {a};
        }
      }
    }
  }

  /** The keys a loop over `xs` visits. */
  function Elems(xs: seq<string>): set<string> { set x | x in xs }

  /** The nested `set.add` loops over the two maps' keys. */
  method BuildResizeList(algs: seq<string>, filters: seq<string>) returns (list: set<string>)
    ensures list == ResizeListOf(Elems(algs), Elems(filters))
  {
    list := {};
    for i := 0 to |algs|
      invariant list == ResizeListOf(Elems(algs[..i]), Elems(filters))
    {
      assert Elems(algs[..i + 1]) == Elems(algs[..i]) + {algs[i]} by {
        assert algs[..i + 1] == algs[..i] + [algs[i]];
      }
      ResizeListAdd(Elems(algs[..i]), Elems(filters), algs[i]);
      if algs[i] == "n" {
        list := list + {"nearest"};
      } else {
        ghost var before := list;
        for j := 0 to |filters|
          invariant list == before + set f | f in filters[..j] :: algs[i] + "_" + f
        {
          assert filters[..j + 1] == filters[..j] + [filters[j]];
          list := list + {algs[i] + "_" + filters[j]};
        }
        assert filters[..|filters|] == filters;
      }
    }
    assert algs[..|algs|] == algs;
  }

  /** "nearest" is listed exactly when "n" is an algorithm key. */
  lemma NearestListed(algs: set<string>, filters: set<string>)
    ensures "nearest" in ResizeListOf(algs, filters) <==> "n" in algs
  {
    forall a, f ensures a + "_" + f != "nearest" {
      NotNearest(a, f);
    }
  }

  lemma NotNearest(a: string, f: string)
    ensures a + "_" + f != "nearest"
  {
    assert (a + "_" + f)[|a|] == '_';
  }

  /** With one-letter algorithm keys (as `RESIZE_ALG_MAP` has), a name
      `"<a>_<f>"` is listed exactly when `a` is a key other than "n" and `f` a
      filter key; in particular "n" contributes no `"n_<filter>"` name. */
  lemma PairListed(algs: set<string>, filters: set<string>, a: string, f: string)
    requires forall k :: k in algs ==> |k| == 1
    requires |a| == 1
    ensures a + "_" + f in ResizeListOf(algs, filters) <==> a in algs && a != "n" && f in filters
  {
    var x := a + "_" + f;
    if x in ResizeListOf(algs, filters) {
      assert x != "nearest" by { assert x[1] == '_'; }
      var a', f' :| a' in algs && a' != "n" && f' in filters && a' + "_" + f' == x;
      assert a' == x[..1] == a;
      assert f' == x[2..] == f;
    }
  }

  // ---------------------------------------------------------------------------
  // validate_resize_algorithms
  // ---------------------------------------------------------------------------

  /** `re.match(r"^dpid_.*$", s)`: "dpid_" then no line break, except that `$`
      also matches before one final line break. */
  predicate DpidMatch(s: string)
  {
    |s| >= 5 && s[..5] == "dpid_"
    && (('\n' !in s[5..]) || (s[|s| - 1] == '\n' && '\n' !in s[5..|s| - 1]))
  }

  /** The composite names accepted besides the table. */
  predicate Composite(s: string) { s == "down_down" || s == "down_up" || s == "up_down" }

  predicate Accepted(alg: string, list: set<string>)
  {
    alg in list || DpidMatch(alg) || Composite(alg)
  }

  /** `validate_resize_algorithms(v)`: the list itself when every name is in
      the table, a dpid name or a composite; otherwise ValueError for the
      first name that is none of these. */
  function ValidateResizeAlgorithms(v: seq<string>, list: set<string>): (r: Result<seq<string>>)
    ensures r.Ok? <==> forall i :: 0 <= i < |v| ==> Accepted(v[i], list)
    ensures r.Ok? ==> r.value == v
    ensures r.Err? ==> r.error == ValueError
  {
    if v == [] then Ok(v)
    else if !Accepted(v[0], list) then Err(ValueError)
    else match ValidateResizeAlgorithms(v[1..], list)
      case Err(e) => Err(e)
      case Ok(_) => Ok(v)
  }

  /** Any "dpid_" name without a line break passes, whatever follows. */
  lemma DpidAlwaysAccepted(suffix: string, list: set<string>)
    requires '\n' !in suffix
    ensures ValidateResizeAlgorithms(["dpid_" + suffix], list) == Ok(["dpid_" + suffix])
  {
    var s := "dpid_" + suffix;
    assert s[..5] == "dpid_" && s[5..] == suffix;
  }
}
