/**
 * The query commands both extractors offer over an extracted API: a
 * case-insensitive substring filter, possibly applied several times, followed
 * by a stable sort by name; and the categorisation of a class's methods.
 */
module Listing {
  import opened Wrappers
  import opened Text
  import opened ApiTypes

  // ----- filtering -----

  /** The filter test: the lowercased name contains the lowercased filter. */
  predicate NameMatches(name: string, filter: string) {
    Contains(ToLower(name), ToLower(filter))
  }

  /** An optional filter: no filter selects everything. */
  predicate Selects(filter: Option<string>, name: string) {
    filter.None? || NameMatches(name, filter.value)
  }

  /** The elements of `xs` satisfying `keep`, in their original order. */
  function Filter<T>(xs: seq<T>, keep: T -> bool): (r: seq<T>)
    ensures |r| <= |xs|
    ensures forall k :: 0 <= k < |r| ==> r[k] in xs && keep(r[k])
    ensures forall k :: 0 <= k < |xs| && keep(xs[k]) ==> xs[k] in r
  {
    if xs == [] then []
    else Filter(xs[..|xs| - 1], keep) + (if keep(xs[|xs| - 1]) then [xs[|xs| - 1]] else [])
  }

  lemma {:induction false} FilterExtensional<T>(xs: seq<T>, f: T -> bool, g: T -> bool)
    requires forall x :: f(x) == g(x)
    ensures Filter(xs, f) == Filter(xs, g)
  {
    if xs != [] {
      FilterExtensional(xs[..|xs| - 1], f, g);
    }
  }

  /** Filtering by `f` and then by `g` is filtering once by their conjunction `h`. */
  lemma {:induction false} FilterTwice<T>(xs: seq<T>, f: T -> bool, g: T -> bool, h: T -> bool)
    requires forall x :: h(x) == (f(x) && g(x))
    ensures Filter(Filter(xs, f), g) == Filter(xs, h)
  {
    if xs != [] {
      var init := xs[..|xs| - 1];
      var last := xs[|xs| - 1];
      FilterTwice(init, f, g, h);
      var once := Filter(xs, f);
      if f(last) {
        assert once == Filter(init, f) + [last];
        assert once[..|once| - 1] == Filter(init, f);
      } else {
        assert once == Filter(init, f);
      }
    }
  }

  /** A test every element passes filters nothing out. */
  lemma {:induction false} FilterAll<T>(xs: seq<T>, keep: T -> bool)
    requires forall x :: keep(x)
    ensures Filter(xs, keep) == xs
  {
    if xs != [] {
      FilterAll(xs[..|xs| - 1], keep);
    }
  }

  /** `Vec::retain`: keeps the elements satisfying `keep`, in order. */
  method Retain<T>(xs: seq<T>, keep: T -> bool) returns (kept: seq<T>)
    ensures kept == Filter(xs, keep)
  {
    kept := [];
    for i := 0 to |xs|
      invariant kept == Filter(xs[..i], keep)
    {
      assert xs[..i + 1][..i] == xs[..i];
      if keep(xs[i]) {
        kept := kept + [xs[i]];
      }
    }
    assert xs[..|xs|] == xs;
  }

  // ----- sorting -----

  /** Rust's ordering of strings: lexicographic, a proper prefix first. */
  predicate LexLe(a: string, b: string)
    decreases |a|
  {
    a == [] || (b != [] && (a[0] < b[0] || (a[0] == b[0] && LexLe(a[1..], b[1..]))))
  }

  lemma {:induction false} LexLeTotal(a: string, b: string)
    ensures LexLe(a, b) || LexLe(b, a)
    decreases |a|
  {
    if a != [] && b != [] && a[0] == b[0] {
      LexLeTotal(a[1..], b[1..]);
    }
  }

  lemma {:induction false} LexLeTransitive(a: string, b: string, c: string)
    requires LexLe(a, b) && LexLe(b, c)
    ensures LexLe(a, c)
    decreases |a|
  {
    if a != [] && a[0] == b[0] && b[0] == c[0] {
      LexLeTransitive(a[1..], b[1..], c[1..]);
    }
  }

  predicate SortedByName<T>(xs: seq<T>, name: T -> string) {
    forall i, j :: 0 <= i < j < |xs| ==> LexLe(name(xs[i]), name(xs[j]))
  }

  lemma InsertKeepsSortedByName<T>(s: seq<T>, j: nat, x: T, name: T -> string)
    requires SortedByName(s, name) && j <= |s|
    requires j > 0 ==> LexLe(name(s[j - 1]), name(x))
    requires forall k :: j <= k < |s| ==> !LexLe(name(s[k]), name(x))
    ensures SortedByName(s[..j] + [x] + s[j..], name)
  {
    var t := s[..j] + [x] + s[j..];
    forall a, b | 0 <= a < b < |t| ensures LexLe(name(t[a]), name(t[b])) {
      if b < j || a > j {
        assert t[a] == (if a < j then s[a] else s[a - 1]);
        assert t[b] == (if b < j then s[b] else s[b - 1]);
      } else if a < j && b == j {
        if a < j - 1 {
          LexLeTransitive(name(s[a]), name(s[j - 1]), name(x));
        }
      } else if a < j {
        assert t[a] == s[a] && t[b] == s[b - 1];
      } else {
        LexLeTotal(name(x), name(s[b - 1]));
      }
    }
  }

  /** `sort_by` on names: a stable insertion sort. */
  method SortByName<T>(xs: seq<T>, name: T -> string) returns (sorted: seq<T>)
    ensures SortedByName(sorted, name)
    ensures multiset(sorted) == multiset(xs)
  {
    sorted := [];
    for i := 0 to |xs|
      invariant SortedByName(sorted, name)
      invariant multiset(sorted) == multiset(xs[..i])
    {
      var x := xs[i];
      var j := |sorted|;
      while j > 0 && !LexLe(name(sorted[j - 1]), name(x))
        invariant 0 <= j <= |sorted|
        invariant forall k :: j <= k < |sorted| ==> !LexLe(name(sorted[k]), name(x))
      {
        j := j - 1;
      }
      InsertKeepsSortedByName(sorted, j, x, name);
      assert sorted == sorted[..j] + sorted[j..];
      sorted := sorted[..j] + [x] + sorted[j..];
      assert xs[..i + 1] == xs[..i] + [x];
    }
    assert xs[..|xs|] == xs;
  }

  // ----- the commands -----

  function ClassName<D>(c: PyClass<D>): string { c.name }

  function MethodName<D>(m: Method<D>): string { m.name }

  function FunctionName<D>(f: Function<D>): string { f.name }

  /** Some parameter's name contains the filter, ignoring case. */
  predicate AnyParameterMatches(parameters: seq<Parameter>, filter: string) {
    exists k :: 0 <= k < |parameters| && NameMatches(parameters[k].name, filter)
  }

  predicate SelectsParameters(filter: Option<string>, parameters: seq<Parameter>) {
    filter.None? || AnyParameterMatches(parameters, filter.value)
  }

  /** The list command: the classes whose name the filter selects, sorted by name. */
  method ListClasses<D>(classes: seq<PyClass<D>>, filter: Option<string>) returns (shown: seq<PyClass<D>>)
    ensures SortedByName(shown, ClassName)
    ensures multiset(shown) == multiset(Filter(classes, ClassSelector(filter)))
  {
    var kept := classes;
    if filter.Some? {
      kept := Retain(kept, ClassSelector(filter));
    } else {
      FilterAll(kept, ClassSelector<D>(filter));
    }
    shown := SortByName(kept, ClassName);
  }

  function ClassSelector<D>(filter: Option<string>): PyClass<D> -> bool {
    (c: PyClass<D>) => Selects(filter, c.name)
  }

  datatype Lookup<T> = Found(value: T) | NotFound(message: string)

  /** The class a query is about: same name ignoring case, and not from the menu-identifier module. */
  predicate IsQueryTarget<D>(c: PyClass<D>, className: string) {
    ToLower(c.name) == ToLower(className) && !Contains(c.filePath, "mainmenu.py")
  }

  /** The first class that is a query target. */
  function FindClass<D>(classes: seq<PyClass<D>>, className: string): (r: Lookup<PyClass<D>>)
    ensures r.Found? <==> exists k :: 0 <= k < |classes| && IsQueryTarget(classes[k], className)
    ensures r.Found? ==>
      exists k :: 0 <= k < |classes| && classes[k] == r.value && IsQueryTarget(classes[k], className)
        && forall j :: 0 <= j < k ==> !IsQueryTarget(classes[j], className)
    ensures r.NotFound? ==> r.message == "Class '" + className + "' not found"
  {
    if classes == [] then NotFound("Class '" + className + "' not found")
    else if IsQueryTarget(classes[0], className) then Found(classes[0])
    else
      var r := FindClass(classes[1..], className);
      assert forall k :: 0 < k < |classes| ==> classes[k] == classes[1..][k - 1];
      r
  }

  function MethodNameSelector<D>(filter: Option<string>): Method<D> -> bool {
    (m: Method<D>) => Selects(filter, m.name)
  }

  function MethodParameterSelector<D>(filter: Option<string>): Method<D> -> bool {
    (m: Method<D>) => SelectsParameters(filter, m.parameters)
  }

  /** Both filters of the query command. */
  function MethodSelector<D>(methodFilter: Option<string>, parameterFilter: Option<string>): Method<D> -> bool {
    (m: Method<D>) => Selects(methodFilter, m.name) && SelectsParameters(parameterFilter, m.parameters)
  }

  /** The query command: the target class, and its methods the filters select, sorted by name. */
  method QueryClass<D>(classes: seq<PyClass<D>>, className: string, methodFilter: Option<string>, parameterFilter: Option<string>)
    returns (r: Lookup<(PyClass<D>, seq<Method<D>>)>)
    ensures r.NotFound? <==> FindClass(classes, className).NotFound?
    ensures r.NotFound? ==> r.message == FindClass(classes, className).message
    ensures r.Found? ==> r.value.0 == FindClass(classes, className).value
    ensures r.Found? ==> SortedByName(r.value.1, MethodName)
    ensures r.Found? ==>
      multiset(r.value.1) == multiset(Filter(r.value.0.methods, MethodSelector(methodFilter, parameterFilter)))
  {
    var target := FindClass(classes, className);
    if target.NotFound? {
      return NotFound(target.message);
    }
    var c := target.value;
    var methods := c.methods;
    if methodFilter.Some? {
      methods := Retain(methods, MethodNameSelector(methodFilter));
    } else {
      FilterAll(methods, MethodNameSelector<D>(methodFilter));
    }
    if parameterFilter.Some? {
      methods := Retain(methods, MethodParameterSelector(parameterFilter));
    } else {
      FilterAll(methods, MethodParameterSelector<D>(parameterFilter));
    }
    FilterTwice(c.methods, MethodNameSelector(methodFilter), MethodParameterSelector(parameterFilter),
      MethodSelector(methodFilter, parameterFilter));
    methods := SortByName(methods, MethodName);
    r := Found((c, methods));
  }

  function FunctionNameSelector<D>(filter: Option<string>): Function<D> -> bool {
    (f: Function<D>) => Selects(filter, f.name)
  }

  function AsyncSelector<D>(asyncOnly: bool): Function<D> -> bool {
    (f: Function<D>) => !asyncOnly || f.isAsync
  }

  function FunctionParameterSelector<D>(filter: Option<string>): Function<D> -> bool {
    (f: Function<D>) => SelectsParameters(filter, f.parameters)
  }

  function NameAndAsyncSelector<D>(nameFilter: Option<string>, asyncOnly: bool): Function<D> -> bool {
    (f: Function<D>) => Selects(nameFilter, f.name) && (!asyncOnly || f.isAsync)
  }

  /** All three filters of the functions command. */
  function FunctionSelector<D>(nameFilter: Option<string>, asyncOnly: bool, parameterFilter: Option<string>): Function<D> -> bool {
    (f: Function<D>) => Selects(nameFilter, f.name) && (!asyncOnly || f.isAsync) && SelectsParameters(parameterFilter, f.parameters)
  }

  /** The functions command: the module-level functions the filters select, sorted by name. */
  method ListFunctions<D>(functions: seq<Function<D>>, nameFilter: Option<string>, asyncOnly: bool, parameterFilter: Option<string>)
    returns (shown: seq<Function<D>>)
    ensures SortedByName(shown, FunctionName)
    ensures multiset(shown) == multiset(Filter(functions, FunctionSelector(nameFilter, asyncOnly, parameterFilter)))
  {
    var kept := functions;
    if nameFilter.Some? {
      kept := Retain(kept, FunctionNameSelector(nameFilter));
    } else {
      FilterAll(kept, FunctionNameSelector<D>(nameFilter));
    }
    if asyncOnly {
      kept := Retain(kept, AsyncSelector(asyncOnly));
    } else {
      FilterAll(kept, AsyncSelector<D>(asyncOnly));
    }
    if parameterFilter.Some? {
      kept := Retain(kept, FunctionParameterSelector(parameterFilter));
    } else {
      FilterAll(kept, FunctionParameterSelector<D>(parameterFilter));
    }
    FilterTwice(functions, FunctionNameSelector(nameFilter), AsyncSelector(asyncOnly), NameAndAsyncSelector(nameFilter, asyncOnly));
    FilterTwice(functions, NameAndAsyncSelector(nameFilter, asyncOnly), FunctionParameterSelector(parameterFilter),
      FunctionSelector(nameFilter, asyncOnly, parameterFilter));
    shown := SortByName(kept, FunctionName);
  }

  // ----- method categories -----

  datatype Category = Getter | Setter | Factory | AsyncOperation | StaticUtility | GeneralMethod

  function CategoryName(c: Category): string {
    match c
    case Getter => "Getter"
    case Setter => "Setter"
    case Factory => "Factory"
    case AsyncOperation => "Async Operation"
    case StaticUtility => "Static Utility"
    case GeneralMethod => "General Method"
  }

  /** The order in which the model lists the categories before sorting by count. */
  const AllCategories: seq<Category> := [Getter, Setter, Factory, AsyncOperation, StaticUtility, GeneralMethod]

  lemma CategoryNamesDistinct(c: Category, d: Category)
    ensures CategoryName(c) == CategoryName(d) ==> c == d
  {
    if CategoryName(c) == CategoryName(d) {
      assert CategoryName(c)[0] == CategoryName(d)[0];
      assert |CategoryName(c)| == |CategoryName(d)|;
    }
  }

  /** The name test for getters: a "get_" or "is_" prefix. */
  predicate GetterName(name: string) {
    StartsWith(name, "get_") || StartsWith(name, "is_")
  }

  /** The name test for factories: "create" or "new" anywhere in the name. */
  predicate FactoryName(name: string) {
    Contains(name, "create") || Contains(name, "new")
  }

  /**
   * A method's category, tested in priority order: a "get_" or "is_" prefix,
   * a "set_" prefix, "create" or "new" in the name, "async" in the name of an
   * async method, a static method, and otherwise a general method.
   */
  function CategoryOf<D>(m: Method<D>): (c: Category)
    ensures c == Getter <==> GetterName(m.name)
    ensures c == Setter <==> !GetterName(m.name) && StartsWith(m.name, "set_")
    ensures c == Factory <==> !GetterName(m.name) && !StartsWith(m.name, "set_") && FactoryName(m.name)
    ensures c == AsyncOperation <==> (!GetterName(m.name) && !StartsWith(m.name, "set_") && !FactoryName(m.name)
      && Contains(m.name, "async") && m.isAsync)
    ensures c == StaticUtility <==> (!GetterName(m.name) && !StartsWith(m.name, "set_") && !FactoryName(m.name)
      && !(Contains(m.name, "async") && m.isAsync) && m.isStatic)
    ensures c == GeneralMethod <==> (!GetterName(m.name) && !StartsWith(m.name, "set_") && !FactoryName(m.name)
      && !(Contains(m.name, "async") && m.isAsync) && !m.isStatic)
  {
    if GetterName(m.name) then Getter
    else if StartsWith(m.name, "set_") then Setter
    else if FactoryName(m.name) then Factory
    else if Contains(m.name, "async") && m.isAsync then AsyncOperation
    else if m.isStatic then StaticUtility
    else GeneralMethod
  }

  /** How many of `methods` fall into `c`. */
  function Count<D>(methods: seq<Method<D>>, c: Category): (n: nat)
    ensures n <= |methods|
  {
    if methods == [] then 0
    else Count(methods[..|methods| - 1], c) + (if CategoryOf(methods[|methods| - 1]) == c then 1 else 0)
  }

  /** The (name, count) entries of the categories `cs` that some method falls into, in the order of `cs`. */
  function TallyOf<D>(methods: seq<Method<D>>, cs: seq<Category>): seq<(string, nat)> {
    if cs == [] then []
    else
      var c := cs[|cs| - 1];
      TallyOf(methods, cs[..|cs| - 1]) + (if Count(methods, c) > 0 then [(CategoryName(c), Count(methods, c))] else [])
  }

  /** Every non-empty category with its count. */
  function Tally<D>(methods: seq<Method<D>>): seq<(string, nat)> {
    TallyOf(methods, AllCategories)
  }

  function Total(entries: seq<(string, nat)>): nat {
    if entries == [] then 0 else Total(entries[..|entries| - 1]) + entries[|entries| - 1].1
  }

  /** The sum of the counts of the categories `cs`, empty ones included. */
  function CountSum<D>(methods: seq<Method<D>>, cs: seq<Category>): nat {
    if cs == [] then 0 else CountSum(methods, cs[..|cs| - 1]) + Count(methods, cs[|cs| - 1])
  }

  lemma {:induction false} TallyOfTotal<D>(methods: seq<Method<D>>, cs: seq<Category>)
    ensures Total(TallyOf(methods, cs)) == CountSum(methods, cs)
  {
    if cs != [] {
      var init := TallyOf(methods, cs[..|cs| - 1]);
      TallyOfTotal(methods, cs[..|cs| - 1]);
      TotalAppend(init, TallyOf(methods, cs)[|init|..]);
      assert TallyOf(methods, cs) == init + TallyOf(methods, cs)[|init|..];
    }
  }

  lemma {:induction false} TotalAppend(a: seq<(string, nat)>, b: seq<(string, nat)>)
    ensures Total(a + b) == Total(a) + Total(b)
    decreases |b|
  {
    if b == [] {
      assert a + b == a;
    } else {
      assert (a + b)[..|a + b| - 1] == a + b[..|b| - 1];
      assert (a + b)[|a + b| - 1] == b[|b| - 1];
      TotalAppend(a, b[..|b| - 1]);
    }
  }

  /** Adding one method adds one to the count sum of any list of distinct categories that holds its category. */
  lemma {:induction false} CountSumStep<D>(methods: seq<Method<D>>, m: Method<D>, cs: seq<Category>)
    requires forall i, j :: 0 <= i < j < |cs| ==> cs[i] != cs[j]
    ensures CountSum(methods + [m], cs) == CountSum(methods, cs) + (if CategoryOf(m) in cs then 1 else 0)
  {
    if cs != [] {
      assert (methods + [m])[..|methods + [m]| - 1] == methods;
      CountSumStep(methods, m, cs[..|cs| - 1]);
      assert CategoryOf(m) in cs <==> CategoryOf(m) in cs[..|cs| - 1] || CategoryOf(m) == cs[|cs| - 1];
    }
  }

  lemma {:induction false} CountSumEmpty<D>(cs: seq<Category>)
    ensures CountSum<D>([], cs) == 0
  {
    if cs != [] {
      CountSumEmpty<D>(cs[..|cs| - 1]);
    }
  }

  lemma {:induction false} CountSumAll<D>(methods: seq<Method<D>>)
    ensures CountSum(methods, AllCategories) == |methods|
  {
    if methods == [] {
      CountSumEmpty<D>(AllCategories);
    } else {
      var init := methods[..|methods| - 1];
      CountSumAll(init);
      assert init + [methods[|methods| - 1]] == methods;
      CountSumStep(init, methods[|methods| - 1], AllCategories);
      var c := CategoryOf(methods[|methods| - 1]);
      assert c in AllCategories by {
        match c
        case Getter => assert AllCategories[0] == c;
        case Setter => assert AllCategories[1] == c;
        case Factory => assert AllCategories[2] == c;
        case AsyncOperation => assert AllCategories[3] == c;
        case StaticUtility => assert AllCategories[4] == c;
        case GeneralMethod => assert AllCategories[5] == c;
      }
    }
  }

  /** The counts of the tally add up to the number of methods. */
  lemma TallyTotal<D>(methods: seq<Method<D>>)
    ensures Total(Tally(methods)) == |methods|
  {
    TallyOfTotal(methods, AllCategories);
    CountSumAll(methods);
  }

  /** A category appears in the tally exactly when some method falls into it, and then with its count. */
  lemma {:induction false} TallyOfEntries<D>(methods: seq<Method<D>>, cs: seq<Category>, c: Category)
    ensures Count(methods, c) > 0 && c in cs <==> (CategoryName(c), Count(methods, c)) in TallyOf(methods, cs)
    ensures forall k :: 0 <= k < |TallyOf(methods, cs)| ==> TallyOf(methods, cs)[k].1 > 0
  {
    if cs != [] {
      TallyOfEntries(methods, cs[..|cs| - 1], c);
      CategoryNamesDistinct(c, cs[|cs| - 1]);
      assert c in cs <==> c in cs[..|cs| - 1] || c == cs[|cs| - 1];
    }
  }

  lemma TallyEntries<D>(methods: seq<Method<D>>, c: Category)
    ensures Count(methods, c) > 0 <==> (CategoryName(c), Count(methods, c)) in Tally(methods)
    ensures forall k :: 0 <= k < |Tally(methods)| ==> Tally(methods)[k].1 > 0
  {
    TallyOfEntries(methods, AllCategories, c);
  }

  predicate SortedByCountDescending(entries: seq<(string, nat)>) {
    forall i, j :: 0 <= i < j < |entries| ==> entries[i].1 >= entries[j].1
  }

  /** Permuting the entries leaves their total unchanged. */
  lemma {:induction false} TotalPermutation(a: seq<(string, nat)>, b: seq<(string, nat)>)
    requires multiset(a) == multiset(b)
    ensures Total(a) == Total(b)
    decreases |a|
  {
    if a != [] {
      var x := a[|a| - 1];
      assert x in multiset(b);
      var k :| 0 <= k < |b| && b[k] == x;
      var rest := b[..k] + b[k + 1..];
      assert b == b[..k] + [x] + b[k + 1..];
      assert a == a[..|a| - 1] + [x];
      assert multiset(a) == multiset(a[..|a| - 1]) + multiset{x};
      assert multiset(b) == multiset(b[..k]) + multiset{x} + multiset(b[k + 1..]);
      assert multiset(rest) == multiset(b[..k]) + multiset(b[k + 1..]);
      assert multiset(a[..|a| - 1]) == multiset(a) - multiset{x};
      assert multiset(rest) == multiset(b) - multiset{x};
      TotalPermutation(a[..|a| - 1], rest);
      TotalAppend(b[..k] + [x], b[k + 1..]);
      TotalAppend(b[..k], [x]);
      TotalAppend(b[..k], b[k + 1..]);
    }
  }

  /** The counting loop: one map entry per category name some method falls into, holding its count. */
  method CountCategories<D>(methods: seq<Method<D>>) returns (counts: map<string, nat>)
    ensures forall c: Category :: CategoryName(c) in counts <==> Count(methods, c) > 0
    ensures forall c: Category :: CategoryName(c) in counts ==> counts[CategoryName(c)] == Count(methods, c)
  {
    counts := map[];
    for i := 0 to |methods|
      invariant forall c: Category :: CategoryName(c) in counts <==> Count(methods[..i], c) > 0
      invariant forall c: Category :: CategoryName(c) in counts ==> counts[CategoryName(c)] == Count(methods[..i], c)
    {
      assert methods[..i + 1][..i] == methods[..i];
      var category := CategoryName(CategoryOf(methods[i]));
      forall c: Category ensures CategoryName(c) == category <==> c == CategoryOf(methods[i]) {
        CategoryNamesDistinct(c, CategoryOf(methods[i]));
      }
      counts := counts[category := (if category in counts then counts[category] else 0) + 1];
    }
    assert methods[..|methods|] == methods;
  }

  lemma InsertKeepsDescending(s: seq<(string, nat)>, j: nat, x: (string, nat))
    requires SortedByCountDescending(s) && j <= |s|
    requires j > 0 ==> s[j - 1].1 >= x.1
    requires forall k :: j <= k < |s| ==> s[k].1 < x.1
    ensures SortedByCountDescending(s[..j] + [x] + s[j..])
  {
    var t := s[..j] + [x] + s[j..];
    forall a, b | 0 <= a < b < |t| ensures t[a].1 >= t[b].1 {
      if a < j {
        assert t[a] == s[a];
        if b > j { assert t[b] == s[b - 1]; }
      } else if a > j {
        assert t[a] == s[a - 1] && t[b] == s[b - 1];
      }
    }
  }

  /** `sort_by` on the counts, largest first: a stable insertion sort. */
  method SortByCountDescending(entries: seq<(string, nat)>) returns (sorted: seq<(string, nat)>)
    ensures SortedByCountDescending(sorted)
    ensures multiset(sorted) == multiset(entries)
  {
    sorted := [];
    for i := 0 to |entries|
      invariant SortedByCountDescending(sorted)
      invariant multiset(sorted) == multiset(entries[..i])
    {
      var x := entries[i];
      var j := |sorted|;
      while j > 0 && sorted[j - 1].1 < x.1
        invariant 0 <= j <= |sorted|
        invariant forall k :: j <= k < |sorted| ==> sorted[k].1 < x.1
      {
        j := j - 1;
      }
      InsertKeepsDescending(sorted, j, x);
      assert sorted == sorted[..j] + sorted[j..];
      sorted := sorted[..j] + [x] + sorted[j..];
      assert entries[..i + 1] == entries[..i] + [x];
    }
    assert entries[..|entries|] == entries;
  }

  /** How many methods each category has, most populated first. */
  method CategorizeMethods<D>(methods: seq<Method<D>>) returns (result: seq<(string, nat)>)
    ensures SortedByCountDescending(result)
    ensures multiset(result) == multiset(Tally(methods))
  {
    var counts := CountCategories(methods);
    // The map's entries, visited in a fixed category order.
    var entries: seq<(string, nat)> := [];
    for k := 0 to |AllCategories|
      invariant entries == TallyOf(methods, AllCategories[..k])
    {
      assert AllCategories[..k + 1][..k] == AllCategories[..k];
      var name := CategoryName(AllCategories[k]);
      if name in counts {
        entries := entries + [(name, counts[name])];
      }
    }
    assert AllCategories[..|AllCategories|] == AllCategories;
    result := SortByCountDescending(entries);
  }

  /** The categorisation accounts for every method exactly once. */
  lemma CategorizationTotal<D>(methods: seq<Method<D>>, result: seq<(string, nat)>)
    requires multiset(result) == multiset(Tally(methods))
    ensures Total(result) == |methods|
  {
    TotalPermutation(result, Tally(methods));
    TallyTotal(methods);
  }
}
