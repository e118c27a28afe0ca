/**
 * The `devise` declaration of a model class: which authentication modules
 * the class gets, and which option values it is configured with.
 *
 * A declaration is one of three forms (no arguments, a list of module
 * names, or `:all` with an optional `:except` list) plus an option hash
 * such as `:stretches => 15, :pepper => 'abcdef'`. The result records the
 * selected modules twice, as the class's `devise_modules` list and as the
 * set of modules mixed into the class, and keeps the two views consistent.
 */
module DeviseModels {
  import opened Wrappers

  /** The five known authentication modules. */
  datatype Module = Authenticable | Confirmable | Recoverable | Rememberable | Validatable

  /** Every known module once, `authenticable` first. */
  const Canonical: seq<Module> := [Authenticable, Confirmable, Recoverable, Rememberable, Validatable]

  /** The symbol name a declaration uses for a module. */
  function Name(m: Module): string
  {
    match m
    case Authenticable => "authenticable"
    case Confirmable => "confirmable"
    case Recoverable => "recoverable"
    case Rememberable => "rememberable"
    case Validatable => "validatable"
  }

  /** The module a symbol name stands for, if it names one. */
  function Parse(s: string): (r: Option<Module>)
    ensures forall m :: r == Some(m) <==> Name(m) == s
  {
    if s == "authenticable" then Some(Authenticable)
    else if s == "confirmable" then Some(Confirmable)
    else if s == "recoverable" then Some(Recoverable)
    else if s == "rememberable" then Some(Rememberable)
    else if s == "validatable" then Some(Validatable)
    else None
  }

  /** A value given for a configuration option. */
  datatype Value = IntValue(i: int) | StringValue(s: string)

  /** Which modules a declaration asks for. */
  datatype Selection =
    | NoArgs                          // `devise`
    | Names(names: seq<string>)       // `devise :confirmable, ...`
    | All(except: seq<string>)        // `devise :all` or `devise :all, :except => [...]`

  datatype Declaration = Declaration(selection: Selection, options: map<string, Value>)

  /** The configuration a declaration gives its model class. */
  datatype ModelConfig = ModelConfig(
    deviseModules: seq<Module>,      // the class's recorded module list
    includedModules: set<Module>,    // the modules mixed into the class
    settings: map<string, Value>)    // the configured option values

  /** The class both records `m` in its module list and has `m` mixed in. */
  predicate IncludesModule(c: ModelConfig, m: Module): (r: bool)
    ensures Consistent(c) ==> (r <==> m in c.includedModules) && (r <==> m in c.deviseModules)
  {
    m in c.deviseModules && m in c.includedModules
  }

  /** The value option `key` reads on instances of the class, if any. */
  function Setting(c: ModelConfig, key: string): (r: Option<Value>)
    ensures r.Some? <==> key in c.settings
    ensures r.Some? ==> c.settings[key] == r.value
  {
    if key in c.settings then Some(c.settings[key]) else None
  }

  /** The position of a module in `Canonical`. */
  function Rank(m: Module): nat
  {
    match m
    case Authenticable => 0
    case Confirmable => 1
    case Recoverable => 2
    case Rememberable => 3
    case Validatable => 4
  }

  /** The modules of `ms` appear in strictly increasing rank, so in the
      order of `Canonical` and without repetition. */
  predicate InCanonicalOrder(ms: seq<Module>)
  {
    forall i, j :: 0 <= i < j < |ms| ==> Rank(ms[i]) < Rank(ms[j])
  }

  /** The two views of the selected modules agree, the list is in the
      order of `Canonical` (so has no repetition), and `authenticable` is
      recorded first. */
  predicate Consistent(c: ModelConfig)
  {
    && (forall m :: m in c.deviseModules <==> m in c.includedModules)
    && InCanonicalOrder(c.deviseModules)
    && |c.deviseModules| > 0 && c.deviseModules[0] == Authenticable
  }

  /** Every name in `names` is a known module; otherwise the first unknown
      name is the error. */
  function ParseAll(names: seq<string>): (r: Result<set<Module>, string>)
    ensures r.Success? <==> forall i :: 0 <= i < |names| ==> Parse(names[i]).Some?
    ensures r.Success? ==> forall m :: m in r.value <==> Name(m) in names
    ensures r.Failure? ==>
      exists k :: 0 <= k < |names| && names[k] == r.error && Parse(r.error).None?
        && forall i :: 0 <= i < k ==> Parse(names[i]).Some?
  {
    if names == [] then Success({})
    else
      match Parse(names[0])
      case None => Failure(names[0])
      case Some(m) =>
        match ParseAll(names[1..])
        case Failure(e) => Failure(e)
        case Success(s) => Success({m} + s)
  }

  /** The modules of `order` that are in `s`, in the order of `order`. */
  function Filter(order: seq<Module>, s: set<Module>): (r: seq<Module>)
    ensures forall m :: m in r <==> m in order && m in s
    ensures InCanonicalOrder(order) ==> InCanonicalOrder(r)
    ensures |order| > 0 && order[0] in s ==> |r| > 0 && r[0] == order[0]
  {
    if order == [] then []
    else if order[0] in s then
      var rest := Filter(order[1..], s);
      assert InCanonicalOrder(order) ==> forall k :: 0 <= k < |rest| ==> Rank(order[0]) < Rank(rest[k]) by {
        if InCanonicalOrder(order) {
          forall k | 0 <= k < |rest| ensures Rank(order[0]) < Rank(rest[k]) {
            assert rest[k] in rest;
            var p :| 0 <= p < |order[1..]| && order[1..][p] == rest[k];
            assert order[p + 1] == rest[k];
          }
        }
      }
      [order[0]] + rest
    else Filter(order[1..], s)
  }

  /** The modules a selection asks for, before `authenticable` is added. */
  function Requested(sel: Selection): (r: Result<set<Module>, string>)
    ensures sel.NoArgs? ==> r == Success({})
    ensures sel.Names? ==>
      && (r.Success? <==> forall i :: 0 <= i < |sel.names| ==> Parse(sel.names[i]).Some?)
      && (r.Success? ==> forall m :: m in r.value <==> Name(m) in sel.names)
      && (r.Failure? ==> r.error in sel.names && Parse(r.error).None?)
    ensures sel.All? ==> r.Success? && forall m :: m in r.value <==> Name(m) !in sel.except
  {
    match sel
    case NoArgs => Success({})
    case Names(names) => ParseAll(names)
    case All(except) => Success(set m: Module | Name(m) !in except)
  }

  /** What the declaration `decl` gives its class; option values in `decl`
      override the global `defaults` key by key. A list naming an unknown
      module fails with that name. */
  function Devise(decl: Declaration, defaults: map<string, Value>): (r: Result<ModelConfig, string>)
    ensures r.Success? <==> Requested(decl.selection).Success?
    ensures r.Failure? ==> Requested(decl.selection) == Failure(r.error)
    ensures r.Success? ==> Consistent(r.value)
    ensures r.Success? ==> forall m :: IncludesModule(r.value, m) <==>
      m == Authenticable || m in Requested(decl.selection).value
    ensures r.Success? ==> forall key :: (Setting(r.value, key) ==
      if key in decl.options then Some(decl.options[key])
      else if key in defaults then Some(defaults[key])
      else None)
  {
    match Requested(decl.selection)
    case Failure(e) => Failure(e)
    case Success(requested) =>
      var selected := {Authenticable} + requested;
      Success(ModelConfig(Filter(Canonical, selected), selected, defaults + decl.options))
  }

  // ---- The declarations the model-class tests make, and what they assert ----

  /** `devise` with no arguments gives `authenticable` and nothing else. */
  lemma NoArgsSelectsAuthenticableOnly(options: map<string, Value>, defaults: map<string, Value>)
    ensures Devise(Declaration(NoArgs, options), defaults).Success?
    ensures forall m :: (IncludesModule(Devise(Declaration(NoArgs, options), defaults).value, m)
      <==> m == Authenticable)
  {
  }

  /** `devise :mod` gives exactly `authenticable` and `mod`. */
  lemma {:induction false} SingleModuleSelected(mod: Module, options: map<string, Value>, defaults: map<string, Value>)
    ensures Devise(Declaration(Names([Name(mod)]), options), defaults).Success?
    ensures forall m :: (IncludesModule(Devise(Declaration(Names([Name(mod)]), options), defaults).value, m)
      <==> m == Authenticable || m == mod)
  {
    assert Parse(Name(mod)) == Some(mod);
  }

  /** Whatever the form, a declaration that resolves includes `authenticable`. */
  lemma AuthenticableAlwaysIncluded(decl: Declaration, defaults: map<string, Value>)
    ensures Devise(decl, defaults).Success? ==> IncludesModule(Devise(decl, defaults).value, Authenticable)
  {
  }

  /** `devise :all` gives all five modules. */
  lemma AllSelectsEveryModule(options: map<string, Value>, defaults: map<string, Value>)
    ensures Devise(Declaration(All([]), options), defaults).Success?
    ensures forall m :: IncludesModule(Devise(Declaration(All([]), options), defaults).value, m)
  {
  }

  /** `devise :all, :except => E` gives every module not named in E, and
      `authenticable` even when E names it. */
  lemma AllExceptSelects(except: seq<string>, options: map<string, Value>, defaults: map<string, Value>)
    ensures Devise(Declaration(All(except), options), defaults).Success?
    ensures forall m :: (IncludesModule(Devise(Declaration(All(except), options), defaults).value, m)
      <==> m == Authenticable || Name(m) !in except)
  {
  }

  /** The `Exceptable` class: excluding recoverable, rememberable and
      validatable leaves exactly authenticable and confirmable. */
  lemma ExceptableSelectsAuthenticableAndConfirmable(defaults: map<string, Value>)
    ensures var r := Devise(Declaration(All(["recoverable", "rememberable", "validatable"]), map[]), defaults);
      r.Success? && forall m :: IncludesModule(r.value, m) <==> m == Authenticable || m == Confirmable
  {
    AllExceptSelects(["recoverable", "rememberable", "validatable"], map[], defaults);
  }

  /** A list that names an unknown module is rejected, and one whose names
      are all known is accepted. */
  lemma NamesResolveIffAllKnown(names: seq<string>, options: map<string, Value>, defaults: map<string, Value>)
    ensures Devise(Declaration(Names(names), options), defaults).Success?
      <==> forall i :: 0 <= i < |names| ==> Parse(names[i]).Some?
  {
  }

  /** The `Configurable` class: `devise :all, :stretches => 15, :pepper =>
      'abcdef'` reads stretches 15 and pepper 'abcdef', whatever the defaults. */
  lemma ConfigurableSettings(defaults: map<string, Value>)
    ensures var r := Devise(Declaration(All([]), map["stretches" := IntValue(15), "pepper" := StringValue("abcdef")]), defaults);
      && r.Success?
      && Setting(r.value, "stretches") == Some(IntValue(15))
      && Setting(r.value, "pepper") == Some(StringValue("abcdef"))
  {
  }

  /** The two ways of asking for a subset agree: `:all, :except => E` gives
      the same class as naming exactly the modules E leaves out. */
  lemma AllExceptEqualsComplementNames(except: seq<string>, names: seq<string>,
                                       options: map<string, Value>, defaults: map<string, Value>)
    requires forall i :: 0 <= i < |names| ==> Parse(names[i]).Some?
    requires forall m :: Name(m) in names <==> Name(m) !in except
    ensures Devise(Declaration(All(except), options), defaults)
         == Devise(Declaration(Names(names), options), defaults)
  {
    var requested := ParseAll(names).value;
    assert requested == set m: Module | Name(m) !in except;
  }
}
