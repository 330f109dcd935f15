/** Selecting the elements of a sequence whose flag is set, the shape every
    "if (flag) list.add(x)" factory in the plugin follows. */
module SeqUtil {

  /** The elements of xs whose corresponding flag is true, in their order in xs. */
  function Selected<T>(xs: seq<T>, flags: seq<bool>): seq<T>
    requires |xs| == |flags|
  {
    if xs == [] then []
    else (if flags[0] then [xs[0]] else []) + Selected(xs[1..], flags[1..])
  }

  /** The number of set flags. */
  function CountTrue(flags: seq<bool>): nat {
    if flags == [] then 0 else (if flags[0] then 1 else 0) + CountTrue(flags[1..])
  }

  /** No element occurs twice. */
  ghost predicate Distinct<T>(s: seq<T>) {
    forall i, j :: 0 <= i < j < |s| ==> s[i] != s[j]
  }

  /** One element per set flag. */
  lemma {:induction false} SelectedLength<T>(xs: seq<T>, flags: seq<bool>)
    requires |xs| == |flags|
    ensures |Selected(xs, flags)| == CountTrue(flags)
  {
    if xs != [] {
      SelectedLength(xs[1..], flags[1..]);
    }
  }

  /** x is selected iff it stands at some position whose flag is set. */
  lemma {:induction false} SelectedMember<T>(xs: seq<T>, flags: seq<bool>, x: T)
    requires |xs| == |flags|
    ensures x in Selected(xs, flags) <==> exists i :: 0 <= i < |xs| && flags[i] && xs[i] == x
  {
    if xs != [] {
      SelectedMember(xs[1..], flags[1..], x);
      if x in Selected(xs[1..], flags[1..]) {
        var i :| 0 <= i < |xs[1..]| && flags[1..][i] && xs[1..][i] == x;
        assert flags[i + 1] && xs[i + 1] == x;
      }
      if exists i :: 0 <= i < |xs| && flags[i] && xs[i] == x {
        var i :| 0 <= i < |xs| && flags[i] && xs[i] == x;
        if i > 0 {
          assert flags[1..][i - 1] && xs[1..][i - 1] == x;
        }
      }
    }
  }

  /** Selecting from a sequence without duplicates gives a sequence without duplicates. */
  lemma {:induction false} SelectedDistinct<T>(xs: seq<T>, flags: seq<bool>)
    requires |xs| == |flags|
    requires Distinct(xs)
    ensures Distinct(Selected(xs, flags))
  {
    if xs != [] {
      assert Distinct(xs[1..]) by {
        forall i, j | 0 <= i < j < |xs[1..]| ensures xs[1..][i] != xs[1..][j] {
          assert xs[1..][i] == xs[i + 1] && xs[1..][j] == xs[j + 1];
        }
      }
      SelectedDistinct(xs[1..], flags[1..]);
      var rest := Selected(xs[1..], flags[1..]);
      if flags[0] {
        SelectedMember(xs[1..], flags[1..], xs[0]);
        assert xs[0] !in rest by {
          forall i | 0 <= i < |xs[1..]| ensures xs[1..][i] != xs[0] {
            assert xs[1..][i] == xs[i + 1];
          }
        }
        var s := [xs[0]] + rest;
        forall i, j | 0 <= i < j < |s| ensures s[i] != s[j] {
          if i == 0 {
            assert s[j] == rest[j - 1];
          } else {
            assert s[i] == rest[i - 1] && s[j] == rest[j - 1];
          }
        }
      } else {
        assert Selected(xs, flags) == rest;
      }
    }
  }

  /** Selecting from a concatenation selects from each part. */
  lemma {:induction false} SelectedAppend<T>(xs: seq<T>, ys: seq<T>, fs: seq<bool>, gs: seq<bool>)
    requires |xs| == |fs| && |ys| == |gs|
    ensures Selected(xs + ys, fs + gs) == Selected(xs, fs) + Selected(ys, gs)
  {
    if xs == [] {
      assert xs + ys == ys && fs + gs == gs;
    } else {
      var head := if fs[0] then [xs[0]] else [];
      assert (xs + ys)[0] == xs[0] && (fs + gs)[0] == fs[0];
      assert (xs + ys)[1..] == xs[1..] + ys && (fs + gs)[1..] == fs[1..] + gs;
      SelectedAppend(xs[1..], ys, fs[1..], gs);
      calc {
        Selected(xs + ys, fs + gs);
        head + Selected(xs[1..] + ys, fs[1..] + gs);
        head + (Selected(xs[1..], fs[1..]) + Selected(ys, gs));
        (head + Selected(xs[1..], fs[1..])) + Selected(ys, gs);
      }
    }
  }

  /** One element is kept iff its flag is set. */
  lemma SelectedSingleton<T>(x: T, f: bool)
    ensures Selected([x], [f]) == if f then [x] else []
  {
    assert [x][1..] == [];
  }
}
