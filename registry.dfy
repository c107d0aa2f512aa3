/**
 * The operator registry of the grid classes: every subclass of `GridBase` owns a table of
 * operators (`_operators`, created fresh by `__init_subclass__`), `register_operator` writes
 * into the table of the class it is called on, `operators` unites the tables along the
 * class's method resolution order, and `_get_operator_info` takes the entry of the most
 * derived class that defines a name.
 */
module Registry {
  import opened Wrappers
  import opened Grids

  /**
   * `OperatorInfo`: the factory (a Python callable, identified here by a number) and the
   * ranks of the fields it consumes and produces.
   */
  datatype OperatorInfo = OperatorInfo(factory: nat, rankIn: int, rankOut: int)

  /** The `_operators` dictionary of one class. */
  type Table = map<string, OperatorInfo>

  /** The argument of `_get_operator_info`: an operator name or an `OperatorInfo`. */
  datatype OpRef = ByName(name: string) | Info(info: OperatorInfo)

  // ---------------------------------------------------------------------------------------
  // Chains of tables, the most derived class first

  /** The tables met along a method resolution order `mro`. */
  function ChainOf(tables: seq<Table>, mro: seq<ClassId>): (r: seq<Table>)
    requires forall k :: 0 <= k < |mro| ==> mro[k] < |tables|
    ensures |r| == |mro| && forall k :: 0 <= k < |mro| ==> r[k] == tables[mro[k]]
  {
    seq(|mro|, k requires 0 <= k < |mro| => tables[mro[k]])
  }

  /** `operators`: the names defined in any table of the chain. */
  function ChainOperators(chain: seq<Table>): (r: set<string>)
    ensures forall n :: n in r <==> exists k :: 0 <= k < |chain| && n in chain[k]
  {
    if |chain| == 0 then {}
    else
      var rest := ChainOperators(chain[1..]);
      assert forall n :: (exists k :: 1 <= k < |chain| && n in chain[k]) ==> n in rest by {
        forall n, k | 1 <= k < |chain| && n in chain[k] ensures n in rest {
          assert chain[1..][k - 1] == chain[k];
        }
      }
      chain[0].Keys + rest
  }

  /** Whether table `k` is the first one of the chain that defines `name`. */
  predicate FirstHolder(chain: seq<Table>, name: string, k: int) {
    0 <= k < |chain| && name in chain[k] && forall j :: 0 <= j < k ==> name !in chain[j]
  }

  /** The first-match search of `_get_operator_info` over the chain. */
  function Lookup(chain: seq<Table>, name: string): (r: Option<OperatorInfo>)
    ensures r.None? ==> forall k :: 0 <= k < |chain| ==> name !in chain[k]
  {
    if |chain| == 0 then None
    else if name in chain[0] then Some(chain[0][name])
    else
      var r := Lookup(chain[1..], name);
      assert r.None? ==> forall k :: 1 <= k < |chain| ==> name !in chain[k] by {
        if r.None? {
          forall k | 1 <= k < |chain| ensures name !in chain[k] {
            assert chain[1..][k - 1] == chain[k];
          }
        }
      }
      r
  }

  /** The search returns the entry of the first table that holds the name. */
  lemma {:induction false} LookupFirstMatch(chain: seq<Table>, name: string, k: int)
    requires FirstHolder(chain, name, k)
    ensures Lookup(chain, name) == Some(chain[k][name])
  {
    if k > 0 {
      assert FirstHolder(chain[1..], name, k - 1);
      LookupFirstMatch(chain[1..], name, k - 1);
    }
  }

  /** A name that some table holds has a first holder. */
  lemma {:induction false} FirstHolderExists(chain: seq<Table>, name: string, k: int)
    requires 0 <= k < |chain| && name in chain[k]
    ensures exists f :: FirstHolder(chain, name, f)
    decreases k
  {
    if exists j :: 0 <= j < k && name in chain[j] {
      var j :| 0 <= j < k && name in chain[j];
      FirstHolderExists(chain, name, j);
    } else {
      assert FirstHolder(chain, name, k);
    }
  }

  /** Every name listed by `operators` resolves, and only those do. */
  lemma LookupResolvesOperators(chain: seq<Table>, name: string)
    ensures Lookup(chain, name).Some? <==> name in ChainOperators(chain)
    ensures name in ChainOperators(chain) ==>
              exists k :: FirstHolder(chain, name, k) && Lookup(chain, name) == Some(chain[k][name])
  {
    if name in ChainOperators(chain) {
      var k :| 0 <= k < |chain| && name in chain[k];
      FirstHolderExists(chain, name, k);
      var f :| FirstHolder(chain, name, f);
      LookupFirstMatch(chain, name, f);
    }
  }

  /**
   * `_get_operator_info`: an `OperatorInfo` is returned as it is, a name is looked up along
   * the chain, and an unknown name is a ValueError naming it.
   */
  function OperatorInfoOf(chain: seq<Table>, op: OpRef): (r: Result<OperatorInfo>)
    ensures op.Info? ==> r == Ok(op.info)
    ensures r.Err? ==> op.ByName? && r.error == UnknownOperator(op.name)
  {
    match op
    case Info(info) => Ok(info)
    case ByName(name) =>
      match Lookup(chain, name)
      case Some(info) => Ok(info)
      case None => Err(UnknownOperator(name))
  }

  /** A name resolves exactly when `operators` lists it, to its most derived definition. */
  lemma OperatorInfoOfName(chain: seq<Table>, name: string)
    ensures OperatorInfoOf(chain, ByName(name)).Ok? <==> name in ChainOperators(chain)
    ensures forall k :: FirstHolder(chain, name, k) ==>
              OperatorInfoOf(chain, ByName(name)) == Ok(chain[k][name])
  {
    LookupResolvesOperators(chain, name);
    forall k | FirstHolder(chain, name, k)
      ensures OperatorInfoOf(chain, ByName(name)) == Ok(chain[k][name])
    {
      LookupFirstMatch(chain, name, k);
    }
  }

  // ---------------------------------------------------------------------------------------
  // Writing and deleting one entry

  /** The tables after `cls._operators[name] = info` on class `c`. */
  function WithOperator(tables: seq<Table>, c: ClassId, name: string, info: OperatorInfo)
    : (r: seq<Table>)
    requires c < |tables|
    ensures |r| == |tables| && name in r[c] && r[c][name] == info
    ensures forall d :: 0 <= d < |tables| && d != c ==> r[d] == tables[d]
    ensures forall n :: n != name ==> (n in r[c] <==> n in tables[c])
  {
    tables[c := tables[c][name := info]]
  }

  /** The tables after `del cls._operators[name]` on class `c`. */
  function WithoutOperator(tables: seq<Table>, c: ClassId, name: string): (r: seq<Table>)
    requires c < |tables|
    ensures |r| == |tables| && name !in r[c]
    ensures forall d :: 0 <= d < |tables| && d != c ==> r[d] == tables[d]
    ensures forall n :: n != name ==> (n in r[c] <==> n in tables[c])
  {
    tables[c := tables[c] - {name}]
  }

  /** Registering a new name and deleting it again restores every table. */
  lemma RegisterThenDeleteRestores(tables: seq<Table>, c: ClassId, name: string, info: OperatorInfo)
    requires c < |tables| && name !in tables[c]
    ensures WithoutOperator(WithOperator(tables, c, name, info), c, name) == tables
  {
    var r := WithoutOperator(WithOperator(tables, c, name, info), c, name);
    assert r[c] == tables[c];
  }

  /**
   * A registration is seen by exactly the classes whose resolution order contains the class
   * written to: they gain the name, and every other class's operators stay as they were.
   */
  lemma RegisterOperators(tables: seq<Table>, c: ClassId, name: string, info: OperatorInfo,
                          mro: seq<ClassId>)
    requires c < |tables| && forall k :: 0 <= k < |mro| ==> mro[k] < |tables|
    ensures c in mro ==>
              ChainOperators(ChainOf(WithOperator(tables, c, name, info), mro))
              == ChainOperators(ChainOf(tables, mro)) + {name}
    ensures c !in mro ==>
              ChainOf(WithOperator(tables, c, name, info), mro) == ChainOf(tables, mro)
  {
    var after := ChainOf(WithOperator(tables, c, name, info), mro);
    var before := ChainOf(tables, mro);
    if c in mro {
      var kc :| 0 <= kc < |mro| && mro[kc] == c;
      assert name in after[kc];
      forall n | n != name
        ensures n in ChainOperators(after) <==> n in ChainOperators(before)
      {
        if n in ChainOperators(before) {
          var k :| 0 <= k < |before| && n in before[k];
          assert n in after[k];
        }
        if n in ChainOperators(after) {
          var k :| 0 <= k < |after| && n in after[k];
          assert n in before[k];
        }
      }
    }
  }

  /** After registering on the grid's own class, its name resolves to the new entry. */
  lemma RegisterOnOwnClassResolves(tables: seq<Table>, name: string, info: OperatorInfo,
                                   mro: seq<ClassId>)
    requires |mro| >= 1 && forall k :: 0 <= k < |mro| ==> mro[k] < |tables|
    ensures OperatorInfoOf(ChainOf(WithOperator(tables, mro[0], name, info), mro), ByName(name))
            == Ok(info)
  {
    var after := ChainOf(WithOperator(tables, mro[0], name, info), mro);
    assert FirstHolder(after, name, 0);
    LookupFirstMatch(after, name, 0);
  }

  /** Whether `s` ends with `suffix` (`str.endswith`). */
  predicate EndsWith(s: string, suffix: string) {
    |suffix| <= |s| && s[|s| - |suffix|..] == suffix
  }

  // ---------------------------------------------------------------------------------------
  // The classes and their tables

  /**
   * The grid classes defined so far, by `ClassId`, with `GridBase` as class 0: their
   * `_operators` tables, their resolution orders without `object`, their names and
   * `deprecated` flags, and `GridBase._subclasses`, which maps the name of every subclass
   * to the class.
   */
  class ClassRegistry {
    var tables: seq<Table>
    var mros: seq<seq<ClassId>>
    var names: seq<string>
    var deprecated: seq<bool>
    var subclasses: map<string, ClassId>

    predicate Valid()
      reads this
    {
      && |tables| >= 1
      && |mros| == |tables| && |names| == |tables| && |deprecated| == |tables|
      && mros[0] == [0]
      && (forall c :: 0 <= c < |mros| ==> |mros[c]| >= 1 && mros[c][0] == c)
      && (forall c, k :: 0 <= c < |mros| && 0 <= k < |mros[c]| ==> mros[c][k] < |tables|)
      && (forall n :: n in subclasses ==> subclasses[n] < |tables|)
    }

    /** The tables along the resolution order of class `c`. */
    function Chain(c: ClassId): (r: seq<Table>)
      reads this
      requires Valid() && c < |tables|
      ensures |r| == |mros[c]| && r[0] == tables[c]
    {
      ChainOf(tables, mros[c])
    }

    /** `cls.operators`. */
    function Operators(c: ClassId): set<string>
      reads this
      requires Valid() && c < |tables|
    {
      ChainOperators(Chain(c))
    }

    /** `_get_operator_info` on an instance of class `c`. */
    function GetOperatorInfo(c: ClassId, op: OpRef): Result<OperatorInfo>
      reads this
      requires Valid() && c < |tables|
    {
      OperatorInfoOf(Chain(c), op)
    }

    /** Just `GridBase`, with an empty table and no subclasses yet. */
    constructor()
      ensures Valid()
      ensures tables == [map[]] && mros == [[0]] && names == ["GridBase"]
      ensures deprecated == [false] && subclasses == map[]
    {
      tables := [map[]];
      mros := [[0]];
      names := ["GridBase"];
      deprecated := [false];
      subclasses := map[];
    }

    /**
     * `__init_subclass__`: the new class, whose ancestors in resolution order are `bases`,
     * gets a fresh empty table and is recorded in `_subclasses` under its name.
     */
    method DeclareSubclass(name: string, bases: seq<ClassId>, isDeprecated: bool)
      returns (c: ClassId)
      requires Valid() && forall k :: 0 <= k < |bases| ==> bases[k] < |tables|
      modifies this
      ensures Valid() && c == old(|tables|)
      ensures tables == old(tables) + [map[]] && mros == old(mros) + [[c] + bases]
      ensures names == old(names) + [name] && deprecated == old(deprecated) + [isDeprecated]
      ensures subclasses == old(subclasses)[name := c]
    {
      c := |tables|;
      tables := tables + [map[]];
      mros := mros + [[c] + bases];
      names := names + [name];
      deprecated := deprecated + [isDeprecated];
      subclasses := subclasses[name := c];
    }

    /** `register_operator(name, factory, rank_in, rank_out)` called on class `c`. */
    method Register(c: ClassId, name: string, factory: nat, rankIn: int, rankOut: int)
      requires Valid() && c < |tables|
      modifies this
      ensures Valid()
      ensures tables == WithOperator(old(tables), c, name, OperatorInfo(factory, rankIn, rankOut))
      ensures mros == old(mros) && names == old(names) && deprecated == old(deprecated)
      ensures subclasses == old(subclasses)
    {
      tables := tables[c := tables[c][name := OperatorInfo(factory, rankIn, rankOut)]];
    }

    /** `del cls._operators[name]`, a KeyError when the class's own table lacks the name. */
    method Delete(c: ClassId, name: string) returns (r: Outcome)
      requires Valid() && c < |tables|
      modifies this
      ensures Valid()
      ensures r.Pass? <==> name in old(tables[c])
      ensures r.Pass? ==> tables == WithoutOperator(old(tables), c, name)
      ensures r.Fail? ==> r.error == KeyError && tables == old(tables)
      ensures mros == old(mros) && names == old(names) && deprecated == old(deprecated)
      ensures subclasses == old(subclasses)
    {
      if name !in tables[c] {
        return Fail(KeyError);
      }
      tables := tables[c := tables[c] - {name}];
      return Pass;
    }

    /**
     * `registered_operators()`: the operators of every recorded subclass whose name does
     * not end in "Base" and that is not deprecated.
     */
    function RegisteredOperators(): (r: map<string, set<string>>)
      reads this
      requires Valid()
      ensures forall n :: n in r <==>
                n in subclasses && !EndsWith(n, "Base") && !deprecated[subclasses[n]]
      ensures forall n :: n in r ==> r[n] == Operators(subclasses[n])
    {
      map n | n in subclasses && !EndsWith(n, "Base") && !deprecated[subclasses[n]]
        :: Operators(subclasses[n])
    }
  }
}
