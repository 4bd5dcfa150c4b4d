/** Name-to-code tables. Every enumeration of the save format is a dict literal in the
    source, mapping a display name to the byte (or nibble, or bit index) that encodes it.
    A `Table` lists that dict's items in the literal's order. Decoding goes the other
    way, through the inverted dict `{val: key for key, val in table.items()}`. */
module Tables {
  import opened Errors

  type Table = seq<(string, int)>

  /** `{val: key for key, val in t.items()}`: a code shared by two names keeps the later name. */
  function Invert(t: Table): map<int, string>
  {
    if t == [] then map[] else Invert(t[..|t| - 1])[t[|t| - 1].1 := t[|t| - 1].0]
  }

  /** The dict itself: a name listed twice keeps its last code. */
  function Dict(t: Table): map<string, int>
  {
    if t == [] then map[] else Dict(t[..|t| - 1])[t[|t| - 1].0 := t[|t| - 1].1]
  }

  /** `next(key for key, value in t.items() if value == code)`; `None` stands for StopIteration. */
  function FirstWith(t: Table, code: int): Option<string>
  {
    if t == [] then None
    else if t[0].1 == code then Some(t[0].0)
    else FirstWith(t[1..], code)
  }

  /** `lookup[code]` on an inverted table; a missing code raises KeyError, reported with
      the record offset it was read from. */
  function Lookup(inverted: map<int, string>, offset: int, code: int): Result<string>
  {
    if code in inverted then Ok(inverted[code]) else Err(UnknownCode(offset, code))
  }

  ghost predicate HasCode(t: Table, code: int)
  {
    exists i :: 0 <= i < |t| && t[i].1 == code
  }

  ghost predicate DistinctCodes(t: Table)
  {
    forall i, j :: 0 <= i < j < |t| ==> t[i].1 != t[j].1
  }

  ghost predicate DistinctNames(t: Table)
  {
    forall i, j :: 0 <= i < j < |t| ==> t[i].0 != t[j].0
  }

  ghost predicate Increasing(t: Table)
  {
    forall i :: 0 < i < |t| ==> t[i - 1].1 < t[i].1
  }

  /** Inverting a table can look up exactly the codes the table lists. */
  lemma {:induction false} InvertDomain(t: Table, code: int)
    ensures code in Invert(t) <==> HasCode(t, code)
  {
    if t != [] {
      var init := t[..|t| - 1];
      InvertDomain(init, code);
      if HasCode(init, code) {
        var i :| 0 <= i < |init| && init[i].1 == code;
        assert t[i].1 == code;
      }
      if HasCode(t, code) && t[|t| - 1].1 != code {
        var i :| 0 <= i < |t| && t[i].1 == code;
        assert init[i].1 == code;
      }
    }
  }

  /** Whatever the inverted table answers is an item of the table. */
  lemma {:induction false} InvertSound(t: Table, code: int)
    requires code in Invert(t)
    ensures exists i :: 0 <= i < |t| && t[i] == (Invert(t)[code], code)
  {
    var last := |t| - 1;
    if t[last].1 == code {
      assert t[last] == (Invert(t)[code], code);
    } else {
      var init := t[..last];
      InvertSound(init, code);
      var i :| 0 <= i < |init| && init[i] == (Invert(init)[code], code);
      assert t[i] == (Invert(t)[code], code);
    }
  }

  /** With distinct codes, inverting a table recovers the name of every item. */
  lemma {:induction false} InvertRecovers(t: Table, i: int)
    requires DistinctCodes(t) && 0 <= i < |t|
    ensures t[i].1 in Invert(t) && Invert(t)[t[i].1] == t[i].0
  {
    var last := |t| - 1;
    if i < last {
      var init := t[..last];
      assert DistinctCodes(init) by {
        forall j, k | 0 <= j < k < |init| ensures init[j].1 != init[k].1 {
          assert init[j] == t[j] && init[k] == t[k];
        }
      }
      InvertRecovers(init, i);
      assert init[i] == t[i];
    }
  }

  /** With distinct names, the dict maps every listed name to its listed code. */
  lemma {:induction false} DictAt(t: Table, i: int)
    requires DistinctNames(t) && 0 <= i < |t|
    ensures t[i].0 in Dict(t) && Dict(t)[t[i].0] == t[i].1
  {
    var last := |t| - 1;
    if i < last {
      var init := t[..last];
      assert DistinctNames(init) by {
        forall j, k | 0 <= j < k < |init| ensures init[j].0 != init[k].0 {
          assert init[j] == t[j] && init[k] == t[k];
        }
      }
      DictAt(init, i);
      assert init[i] == t[i];
    }
  }

  /** The dict's keys are exactly the listed names. */
  lemma {:induction false} DictKeys(t: Table)
    ensures Dict(t).Keys == set i | 0 <= i < |t| :: t[i].0
  {
    if t != [] {
      var init := t[..|t| - 1];
      DictKeys(init);
      assert forall i :: 0 <= i < |init| ==> init[i] == t[i];
      assert (set i | 0 <= i < |t| :: t[i].0) == (set i | 0 <= i < |init| :: init[i].0) + {t[|t| - 1].0};
    }
  }

  /** With distinct codes, `next(...)` finds the one item that has the code. */
  lemma {:induction false} FirstWithFinds(t: Table, i: int)
    requires DistinctCodes(t) && 0 <= i < |t|
    ensures FirstWith(t, t[i].1) == Some(t[i].0)
  {
    if i > 0 {
      var rest := t[1..];
      assert DistinctCodes(rest) by {
        forall j, k | 0 <= j < k < |rest| ensures rest[j].1 != rest[k].1 {
          assert rest[j] == t[j + 1] && rest[k] == t[k + 1];
        }
      }
      assert t[0].1 != t[i].1;
      FirstWithFinds(rest, i - 1);
      assert rest[i - 1] == t[i];
    }
  }

  /** `next(...)` raises StopIteration exactly when no item has the code. */
  lemma {:induction false} FirstWithMisses(t: Table, code: int)
    ensures FirstWith(t, code).None? <==> !HasCode(t, code)
  {
    if t != [] {
      FirstWithMisses(t[1..], code);
      if HasCode(t, code) && t[0].1 != code {
        var i :| 0 <= i < |t| && t[i].1 == code;
        assert t[1..][i - 1].1 == code;
      }
      if HasCode(t[1..], code) {
        var i :| 0 <= i < |t[1..]| && t[1..][i].1 == code;
        assert t[i + 1].1 == code;
      }
    }
  }

  /** With distinct codes the inverted dict and the first-match search agree. */
  lemma FirstWithIsInvert(t: Table, code: int)
    requires DistinctCodes(t)
    ensures FirstWith(t, code) == (if code in Invert(t) then Some(Invert(t)[code]) else None)
  {
    InvertDomain(t, code);
    FirstWithMisses(t, code);
    if code in Invert(t) {
      var i :| 0 <= i < |t| && t[i].1 == code;
      InvertRecovers(t, i);
      FirstWithFinds(t, i);
    }
  }

  /** Codes listed in increasing order are distinct. */
  lemma {:induction false} IncreasingDistinct(t: Table)
    requires Increasing(t)
    ensures DistinctCodes(t)
    ensures forall i, j :: 0 <= i < j < |t| ==> t[i].1 < t[j].1
  {
    if |t| > 1 {
      var init := t[..|t| - 1];
      assert Increasing(init) by {
        forall i | 0 < i < |init| ensures init[i - 1].1 < init[i].1 {
          assert init[i - 1] == t[i - 1] && init[i] == t[i];
        }
      }
      IncreasingDistinct(init);
      forall i, j | 0 <= i < j < |t| ensures t[i].1 < t[j].1 {
        if j < |t| - 1 {
          assert init[i] == t[i] && init[j] == t[j];
        } else if i < j - 1 {
          assert init[i] == t[i] && init[j - 1] == t[j - 1];
        }
      }
    }
  }

  /** Every code of `t` is below `k`. */
  ghost predicate CodesBelow(t: Table, k: int)
  {
    forall i :: 0 <= i < |t| ==> t[i].1 < k
  }

  /** Every code of `t` is at least `k`. */
  ghost predicate CodesFrom(t: Table, k: int)
  {
    forall i :: 0 <= i < |t| ==> t[i].1 >= k
  }

  /** Every code of `t` is non-negative, so it can serve as a shift count; stated from
      the last entry backwards, the way the table dictionaries are built. */
  ghost predicate Unsigned(t: Table)
  {
    t == [] || (t[|t| - 1].1 >= 0 && Unsigned(t[..|t| - 1]))
  }

  lemma {:induction false} UnsignedFrom(t: Table)
    requires CodesFrom(t, 0)
    ensures Unsigned(t)
  {
    if t != [] {
      assert CodesFrom(t[..|t| - 1], 0);
      UnsignedFrom(t[..|t| - 1]);
    }
  }

  lemma {:induction false} UnsignedPrefix(t: Table, i: int)
    requires Unsigned(t) && 0 <= i <= |t|
    ensures Unsigned(t[..i])
  {
    if i < |t| {
      assert t[..|t| - 1][..i] == t[..i];
      UnsignedPrefix(t[..|t| - 1], i);
    } else {
      assert t[..i] == t;
    }
  }

  /** Two tables with distinct codes, separated by a bound `k`, concatenate to one with
      distinct codes. */
  lemma ConcatDistinct(a: Table, b: Table, k: int)
    requires DistinctCodes(a) && DistinctCodes(b)
    requires (CodesBelow(a, k) && CodesFrom(b, k)) || (CodesFrom(a, k) && CodesBelow(b, k))
    ensures DistinctCodes(a + b)
  {
    var t := a + b;
    forall i, j | 0 <= i < j < |t| ensures t[i].1 != t[j].1 {
      if j < |a| {
        assert t[i] == a[i] && t[j] == a[j];
      } else if i < |a| {
        assert t[i] == a[i] && t[j] == b[j - |a|];
      } else {
        assert t[i] == b[i - |a|] && t[j] == b[j - |a|];
      }
    }
  }

  /** A table whose codes index a witness sequence `pos` back to their own positions has
      distinct codes: two items sharing a code would share a position. */
  lemma DistinctByPosition(t: Table, pos: seq<int>)
    requires forall i :: 0 <= i < |t| ==> 0 <= t[i].1 < |pos| && pos[t[i].1] == i
    ensures DistinctCodes(t)
  {
  }

  /** A table whose names an index function maps back to their own positions has
      distinct names. */
  lemma DistinctNamesByIndex(t: Table, index: string -> int)
    requires forall i :: 0 <= i < |t| ==> index(t[i].0) == i
    ensures DistinctNames(t)
  {
  }

  /** Re-inserting items a table already holds (the source's `{**a, **b}` with `b`
      contained in `a`) does not change its inversion. */
  lemma {:induction false} InvertRedundant(t: Table, s: Table)
    requires DistinctCodes(t)
    requires forall j :: 0 <= j < |s| ==> s[j] in t
    ensures Invert(t + s) == Invert(t)
  {
    if s != [] {
      var init := s[..|s| - 1];
      InvertRedundant(t, init);
      assert (t + s)[..|t + s| - 1] == t + init;
      var item := s[|s| - 1];
      var i :| 0 <= i < |t| && t[i] == item;
      InvertRecovers(t, i);
      assert (t + s)[|t + s| - 1] == item;
      assert Invert(t + s) == Invert(t + init)[item.1 := item.0];
      assert Invert(t)[item.1 := item.0] == Invert(t);
    } else {
      assert t + s == t;
    }
  }

  /** The commodity table. Village, Colony, Unit and TradeRoute each declare this same
      dict (`supplies`); Village adds `'(None)': 0xFF` to its copy. */
  const Supplies: Table := [
    ("Food", 0x0), ("Sugar", 0x1), ("Tobacco", 0x2), ("Cotton", 0x3),
    ("Furs", 0x4), ("Lumber", 0x5), ("Ore", 0x6), ("Silver", 0x7),
    ("Horses", 0x8), ("Rum", 0x9), ("Cigars", 0xA), ("Cloth", 0xB),
    ("Coats", 0xC), ("Trade Goods", 0xD), ("Tools", 0xE), ("Muskets", 0xF)]

  /** The position of each commodity name in `Supplies`. */
  function SupplyPosition(name: string): int
  {
    if name == "Food" then 0 else if name == "Sugar" then 1 else if name == "Tobacco" then 2
    else if name == "Cotton" then 3 else if name == "Furs" then 4 else if name == "Lumber" then 5
    else if name == "Ore" then 6 else if name == "Silver" then 7 else if name == "Horses" then 8
    else if name == "Rum" then 9 else if name == "Cigars" then 10 else if name == "Cloth" then 11
    else if name == "Coats" then 12 else if name == "Trade Goods" then 13 else if name == "Tools" then 14
    else if name == "Muskets" then 15 else -1
  }

  lemma SupplyPositions()
    ensures forall i :: 0 <= i < |Supplies| ==> SupplyPosition(Supplies[i].0) == i
  {
  }

  lemma SuppliesIncreasing()
    ensures Increasing(Supplies)
  {
  }

  lemma SupplyCodes()
    ensures forall i :: 0 <= i < |Supplies| ==> Supplies[i].1 == i
  {
  }

  /** Commodity `i` sits at position `i` with code `i`, so every nibble value names a
      commodity, none names two, and no commodity is listed twice. */
  lemma SuppliesComplete()
    ensures DistinctCodes(Supplies) && DistinctNames(Supplies)
    ensures forall code :: 0 <= code < 16 ==> code in Invert(Supplies) && Invert(Supplies)[code] == Supplies[code].0
    ensures forall code :: code in Invert(Supplies) <==> 0 <= code < 16
  {
    SuppliesIncreasing();
    SupplyCodes();
    IncreasingDistinct(Supplies);
    SupplyPositions();
    DistinctNamesByIndex(Supplies, SupplyPosition);
    forall code | 0 <= code < 16
      ensures code in Invert(Supplies) && Invert(Supplies)[code] == Supplies[code].0
    {
      InvertRecovers(Supplies, code);
    }
    forall code ensures code in Invert(Supplies) <==> 0 <= code < 16 {
      InvertDomain(Supplies, code);
    }
  }
}
