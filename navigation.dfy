/**
 * Routes between the panes of the linking flow (`NavigationCommand`,
 * `NavigationDirections`) and the navigation events view-models emit
 * (`NavigationState`).
 */
module Navigation {
  import opened Wrappers
  import opened Strings
  import opened FinancialConnectionsModel

  // ---------------------------------------------------------------- directions

  /** The objects of `NavigationDirections`, one per pane. */
  datatype Direction =
    | InstitutionPicker
    | Consent
    | PartnerAuth
    | AccountPicker
    | Success
    | ManualEntry
    | AttachLinkedPaymentAccount
    | NetworkingLinkSignup
    | NetworkingLinkLoginWarmup
    | NetworkingLinkVerification
    | NetworkingSaveToLinkVerification
    | LinkAccountPicker
    | LinkStepUpVerification
    | Reset
    | ManualEntrySuccess

  function BaseRoute(d: Direction): (r: string)
    ensures |r| > 0
  {
    match d
    case InstitutionPicker => "bank_picker"
    case Consent => "bank_intro"
    case PartnerAuth => "partner_auth"
    case AccountPicker => "account_picker"
    case Success => "success"
    case ManualEntry => "manual_entry"
    case AttachLinkedPaymentAccount => "attach_linked_payment_account"
    case NetworkingLinkSignup => "networking_link_signup_pane"
    case NetworkingLinkLoginWarmup => "networking_link_login_warmup"
    case NetworkingLinkVerification => "networking_link_verification_pane"
    case NetworkingSaveToLinkVerification => "networking_save_to_link_verification_pane"
    case LinkAccountPicker => "linkaccount_picker"
    case LinkStepUpVerification => "link_step_up_verification"
    case Reset => "reset"
    case ManualEntrySuccess => "manual_entry_success"
  }

  /** No two directions share a base route. */
  lemma BaseRouteInjective(d1: Direction, d2: Direction)
    ensures BaseRoute(d1) == BaseRoute(d2) ==> d1 == d2
  {
  }

  // The three lemmas below split the character-by-character check of the
  // longest base routes into pieces the verifier handles quickly.

  lemma VerificationBaseRouteShape(d: Direction)
    requires d.NetworkingLinkVerification? || d.NetworkingSaveToLinkVerification?
    ensures '?' !in BaseRoute(d)
  {
  }

  lemma NetworkingBaseRouteShape(d: Direction)
    requires d.NetworkingLinkSignup? || d.NetworkingLinkLoginWarmup?
    ensures '?' !in BaseRoute(d)
  {
  }

  lemma LinkBaseRouteShape(d: Direction)
    requires d.AttachLinkedPaymentAccount? || d.LinkStepUpVerification?
    ensures '?' !in BaseRoute(d)
  {
  }

  /** No base route holds the `?` that starts a route's parameters. */
  lemma BaseRouteShape(d: Direction)
    ensures '?' !in BaseRoute(d)
  {
    match d
    case NetworkingLinkVerification | NetworkingSaveToLinkVerification => VerificationBaseRouteShape(d);
    case NetworkingLinkSignup | NetworkingLinkLoginWarmup => NetworkingBaseRouteShape(d);
    case AttachLinkedPaymentAccount | LinkStepUpVerification => LinkBaseRouteShape(d);
    case _ =>
  }

  // ----------------------------------------------------------------- arguments

  const KeyReferrerPane := "referrer_pane"
  const KeyMicrodeposits := "microdeposits"
  const KeyLast4 := "last4"

  datatype NavType = StringType | EnumType(enumClass: string)

  /**
   * What `navArgument { ... }` sets: the type, nullability and, when one was
   * given, the default value (`Some(None)` is a default of `null`).
   */
  datatype NavArgument = NavArgument(navType: NavType, isNullable: bool, defaultValue: Option<Option<string>>)

  datatype NamedNavArgument = NamedNavArgument(name: string, argument: NavArgument)

  /** `referrerPane` is the one argument every pane declares: a nullable string whose default is `null`. */
  function CommonArguments(): (r: seq<NamedNavArgument>)
    ensures |r| == 1 && r[0].name == KeyReferrerPane
    ensures r[0].argument.navType == StringType && r[0].argument.isNullable
    ensures r[0].argument.defaultValue == Some(None)
  {
    [NamedNavArgument(KeyReferrerPane, NavArgument(StringType, true, Some(None)))]
  }

  /** `arguments`: the common list, which `ManualEntrySuccess` extends by `last4` and `microdeposits`. */
  function Arguments(d: Direction): (r: seq<NamedNavArgument>)
    ensures 1 <= |r| && r[0] == CommonArguments()[0]
    ensures d != ManualEntrySuccess ==> |r| == 1
    ensures d == ManualEntrySuccess ==> |r| == 3 && r[1].name == KeyLast4 && r[2].name == KeyMicrodeposits
  {
    if d == ManualEntrySuccess then
      CommonArguments() + [
        NamedNavArgument(KeyLast4, NavArgument(StringType, false, None)),
        NamedNavArgument(KeyMicrodeposits, NavArgument(EnumType("MicrodepositVerificationMethod"), false, None))
      ]
    else CommonArguments()
  }

  function ArgumentNames(args: seq<NamedNavArgument>): seq<string>
  {
    seq(|args|, i requires 0 <= i < |args| => args[i].name)
  }

  /** Every direction declares `referrer_pane`; only `ManualEntrySuccess` adds `last4` and `microdeposits`. */
  lemma ArgumentNamesOf(d: Direction)
    ensures ArgumentNames(Arguments(d)) ==
      if d == ManualEntrySuccess then [KeyReferrerPane, KeyLast4, KeyMicrodeposits] else [KeyReferrerPane]
  {
  }

  // --------------------------------------------------------------- destination

  /**
   * One `"$key={$value}"` segment of `destination`. The destructured `value`
   * is the argument object, whose text form (`render`) comes from the
   * navigation library.
   */
  function Placeholder(a: NamedNavArgument, render: NavArgument -> string): string
  {
    a.name + "={" + render(a.argument) + "}"
  }

  function Placeholders(args: seq<NamedNavArgument>, render: NavArgument -> string): seq<string>
  {
    seq(|args|, i requires 0 <= i < |args| => Placeholder(args[i], render))
  }

  /** `"$baseRoute?" + arguments.joinToString(",") { ... }` */
  function Pattern(base: string, args: seq<NamedNavArgument>, render: NavArgument -> string): (r: string)
    ensures base + "?" <= r
  {
    base + "?" + Join(Placeholders(args, render), ',')
  }

  /** `destination`, the route pattern a pane is registered under. */
  function Destination(d: Direction, render: NavArgument -> string): (r: string)
    ensures BaseRoute(d) + "?" <= r
  {
    Pattern(BaseRoute(d), Arguments(d), render)
  }

  /** A pattern is its base, one `?`, then one segment per argument in order, joined by commas. */
  lemma PatternSegments(base: string, args: seq<NamedNavArgument>, render: NavArgument -> string)
    requires '?' !in base
    requires forall i :: 0 <= i < |args| ==> ',' !in args[i].name && ',' !in render(args[i].argument)
    ensures var r := Pattern(base, args, render);
      && IndexOf(r, '?') == |base|
      && r[..|base|] == base
      && Split(r[|base| + 1..], ',') == if args == [] then [""] else Placeholders(args, render)
  {
    var ps := Placeholders(args, render);
    IndexOfAfterPrefix(base, '?', Join(ps, ','));
    var r := base + "?" + Join(ps, ',');
    assert r[..|base|] == base;
    assert r[|base| + 1..] == Join(ps, ',');
    if args != [] {
      forall k | 0 <= k < |ps| ensures ',' !in ps[k] {
        assert ps[k] == args[k].name + "={" + render(args[k].argument) + "}";
      }
      SplitJoin(ps, ',');
    }
  }

  /**
   * The pattern of a direction is its base route, one `?`, then one
   * `key={...}` segment per declared argument, joined by commas.
   */
  lemma DestinationSegments(d: Direction, render: NavArgument -> string)
    requires forall a :: ',' !in render(a)
    ensures IndexOf(Destination(d, render), '?') == |BaseRoute(d)|
    ensures Destination(d, render)[..|BaseRoute(d)|] == BaseRoute(d)
    ensures Split(Destination(d, render)[|BaseRoute(d)| + 1..], ',') == Placeholders(Arguments(d), render)
    ensures |Placeholders(Arguments(d), render)| == |Arguments(d)|
  {
    BaseRouteShape(d);
    PatternSegments(BaseRoute(d), Arguments(d), render);
  }

  // --------------------------------------------------------------------- routes

  /** A parameter map in its iteration order; a `None` value is a Kotlin `null`. */
  type Params = seq<(string, Option<string>)>

  /** How a string template renders a `String?`. */
  function ValueText(v: Option<string>): string
  {
    match v
    case None => "null"
    case Some(s) => s
  }

  /** `referrer?.value` */
  function ReferrerValue(referrer: Option<Pane>): Option<string>
  {
    match referrer
    case None => None
    case Some(p) => Some(p.value)
  }

  /** One `"$key=$value"` segment of a concrete route. */
  function Segment(key: string, value: Option<string>): string
  {
    key + "=" + ValueText(value)
  }

  /** `listOf("referrer_pane" to referrer?.value) + params.toList()`, each entry rendered. */
  function Segments(referrer: Option<Pane>, params: Params): seq<string>
  {
    [Segment(KeyReferrerPane, ReferrerValue(referrer))]
      + seq(|params|, i requires 0 <= i < |params| => Segment(params[i].0, params[i].1))
  }

  /**
   * `base.addParameters(referrer, params)`: `?`, then the referrer segment,
   * then the parameter segments, joined by commas.
   */
  function AddParameters(base: string, referrer: Option<Pane>, params: Params): (r: string)
    ensures base + "?" + Segment(KeyReferrerPane, ReferrerValue(referrer)) <= r
    ensures |params| == 0 ==> r == base + "?" + Segment(KeyReferrerPane, ReferrerValue(referrer))
    ensures |params| > 0 ==>
      var head := base + "?" + Segment(KeyReferrerPane, ReferrerValue(referrer));
      |r| > |head| && r[|head|] == ','
  {
    base + "?" + Join(Segments(referrer, params), ',')
  }

  /** `command(referrer, params)`: every direction's `invoke` is `addParameters` on its base route. */
  function Route(d: Direction, referrer: Option<Pane>, params: Params): (r: string)
    ensures BaseRoute(d) + "?" + Segment(KeyReferrerPane, ReferrerValue(referrer)) <= r
    ensures |params| == 0 <==> r == BaseRoute(d) + "?" + Segment(KeyReferrerPane, ReferrerValue(referrer))
  {
    AddParameters(BaseRoute(d), referrer, params)
  }

  /** A route cut back into its base and its `key=value` pairs (the inverse of `Route`). */
  datatype ParsedRoute = ParsedRoute(base: string, pairs: seq<(string, string)>)

  /** A segment cut at its first `=`. */
  function KeyValue(segment: string): (string, string)
  {
    var j := IndexOf(segment, '=');
    if j == |segment| then (segment, "") else (segment[..j], segment[j + 1..])
  }

  function KeyValues(segments: seq<string>): seq<(string, string)>
  {
    seq(|segments|, k requires 0 <= k < |segments| => KeyValue(segments[k]))
  }

  /** Cuts a route at its first `?`, then at every `,`, then each segment at its first `=`. */
  function ParseRoute(route: string): (r: Option<ParsedRoute>)
    ensures r.Some? <==> '?' in route
    ensures r.Some? ==> r.value.base <= route && '?' !in r.value.base && |r.value.pairs| > 0
  {
    var i := IndexOf(route, '?');
    if i == |route| then None
    else Some(ParsedRoute(route[..i], KeyValues(Split(route[i + 1..], ','))))
  }

  /** Keys and values a route can carry without becoming ambiguous. */
  predicate ParsableParams(params: Params)
  {
    forall i :: 0 <= i < |params| ==>
      ',' !in params[i].0 && '=' !in params[i].0 && ',' !in ValueText(params[i].1)
  }

  /** The pairs a route is built from, with values as their text. */
  function RoutePairs(referrer: Option<Pane>, params: Params): seq<(string, string)>
  {
    [(KeyReferrerPane, ValueText(ReferrerValue(referrer)))]
      + seq(|params|, i requires 0 <= i < |params| => (params[i].0, ValueText(params[i].1)))
  }

  lemma KeyValueOfSegment(key: string, value: Option<string>)
    requires '=' !in key
    ensures KeyValue(Segment(key, value)) == (key, ValueText(value))
  {
    var s := Segment(key, value);
    assert s == key + ['='] + ValueText(value);
    IndexOfAfterPrefix(key, '=', ValueText(value));
    assert s[..|key|] == key;
    assert s[|key| + 1..] == ValueText(value);
  }

  /** The segments of a route hold no comma when its keys and values hold none. */
  lemma SegmentsHaveNoComma(referrer: Option<Pane>, params: Params)
    requires ParsableParams(params)
    requires ',' !in ValueText(ReferrerValue(referrer))
    ensures forall k :: 0 <= k < |Segments(referrer, params)| ==> ',' !in Segments(referrer, params)[k]
  {
    var segs := Segments(referrer, params);
    forall k | 0 <= k < |segs| ensures ',' !in segs[k] {
      if k > 0 {
        assert segs[k] == params[k - 1].0 + "=" + ValueText(params[k - 1].1);
      }
    }
  }

  /** `referrer_pane` holds no `=`. */
  lemma ReferrerKeyShape()
    ensures '=' !in KeyReferrerPane && ',' !in KeyReferrerPane
  {
  }

  lemma KeyValueAt(referrer: Option<Pane>, params: Params, k: nat)
    requires ParsableParams(params)
    requires k <= |params|
    ensures KeyValue(Segments(referrer, params)[k]) == RoutePairs(referrer, params)[k]
  {
    if k == 0 {
      ReferrerKeyShape();
      KeyValueOfSegment(KeyReferrerPane, ReferrerValue(referrer));
    } else {
      var (key, value) := params[k - 1];
      assert '=' !in key;
      assert Segments(referrer, params)[k] == Segment(key, value);
      assert RoutePairs(referrer, params)[k] == (key, ValueText(value));
      KeyValueOfSegment(key, value);
    }
  }

  /** The segments of a route read back as the pairs they were rendered from. */
  lemma KeyValuesOfSegments(referrer: Option<Pane>, params: Params)
    requires ParsableParams(params)
    ensures KeyValues(Segments(referrer, params)) == RoutePairs(referrer, params)
  {
    var segs := Segments(referrer, params);
    forall k | 0 <= k < |segs| ensures KeyValues(segs)[k] == RoutePairs(referrer, params)[k] {
      KeyValueAt(referrer, params, k);
    }
  }

  /** Reading back `addParameters` on a base without `?`. */
  lemma ParseAddParameters(base: string, referrer: Option<Pane>, params: Params)
    requires '?' !in base
    requires ParsableParams(params)
    requires ',' !in ValueText(ReferrerValue(referrer))
    ensures ParseRoute(AddParameters(base, referrer, params)) == Some(ParsedRoute(base, RoutePairs(referrer, params)))
  {
    var segs := Segments(referrer, params);
    var r := AddParameters(base, referrer, params);
    IndexOfAfterPrefix(base, '?', Join(segs, ','));
    assert r[..|base|] == base;
    assert r[|base| + 1..] == Join(segs, ',');
    SegmentsHaveNoComma(referrer, params);
    SplitJoin(segs, ',');
    KeyValuesOfSegments(referrer, params);
  }

  /**
   * Reading a route back gives its base route, then `referrer_pane` first,
   * then every parameter in its given order, a null having become `"null"`.
   */
  lemma ParseRouteOfRoute(d: Direction, referrer: Option<Pane>, params: Params)
    requires ParsableParams(params)
    requires ',' !in ValueText(ReferrerValue(referrer))
    ensures ParseRoute(Route(d, referrer, params)) == Some(ParsedRoute(BaseRoute(d), RoutePairs(referrer, params)))
  {
    BaseRouteShape(d);
    ParseAddParameters(BaseRoute(d), referrer, params);
  }

  /** A null value and the text "null" give the same route: the rendering does not tell them apart. */
  lemma NullIsRenderedAsText(d: Direction, referrer: Option<Pane>, params: Params, i: nat)
    requires i < |params| && params[i].1 == None
    ensures Route(d, referrer, params) == Route(d, referrer, params[i := (params[i].0, Some("null"))])
  {
    var other := params[i := (params[i].0, Some("null"))];
    assert Segments(referrer, params) == Segments(referrer, other);
  }

  // --------------------------------------------------------- ManualEntrySuccess

  /** An entry of the `MicrodepositVerificationMethod` enum: its constant name and wire value. */
  datatype MicrodepositVerificationMethod = MicrodepositVerificationMethod(name: string, value: string)

  /** `argMap`: the parameters `ManualEntrySuccess` is navigated with. */
  function ArgMap(m: MicrodepositVerificationMethod, last4: Option<string>): (r: Params)
    ensures |r| == 2 && r[0].0 == KeyMicrodeposits && r[1].0 == KeyLast4
    ensures r[0].1 == Some(m.value) && r[1].1 == last4
  {
    [(KeyMicrodeposits, Some(m.value)), (KeyLast4, last4)]
  }

  /** `backStackEntry.arguments?.getString(key)`; `arguments` is the entry's bundle, when it has one. */
  function GetString(arguments: Option<map<string, string>>, key: string): (r: Option<string>)
    ensures r.Some? <==> arguments.Some? && key in arguments.value
    ensures r.Some? ==> r.value == arguments.value[key]
  {
    match arguments
    case None => None
    case Some(bundle) => if key in bundle then Some(bundle[key]) else None
  }

  /** Index of the first enum entry whose value is `v`, or `|values|` when none is. */
  function FirstIndexWithValue(values: seq<MicrodepositVerificationMethod>, v: string): (i: nat)
    ensures i <= |values|
    ensures i < |values| ==> values[i].value == v
    ensures forall j :: 0 <= j < i ==> values[j].value != v
  {
    if |values| == 0 || values[0].value == v then 0 else 1 + FirstIndexWithValue(values[1..], v)
  }

  datatype DecodeError = NoSuchElement

  /**
   * `microdeposits(backStackEntry)`: `values` is `MicrodepositVerificationMethod.values()`
   * in declaration order and `unknown` its `UNKNOWN` entry.
   */
  function Microdeposits(arguments: Option<map<string, string>>,
                         values: seq<MicrodepositVerificationMethod>,
                         unknown: MicrodepositVerificationMethod): (r: Result<MicrodepositVerificationMethod, DecodeError>)
    ensures GetString(arguments, KeyMicrodeposits).None? ==> r == Ok(unknown)
    ensures GetString(arguments, KeyMicrodeposits).Some? && r.Ok? ==>
      r.value in values && r.value.value == GetString(arguments, KeyMicrodeposits).value
    ensures r.Err? <==>
      GetString(arguments, KeyMicrodeposits).Some? &&
      forall j :: 0 <= j < |values| ==> values[j].value != GetString(arguments, KeyMicrodeposits).value
  {
    match GetString(arguments, KeyMicrodeposits)
    case None => Ok(unknown)
    case Some(v) =>
      var i := FirstIndexWithValue(values, v);
      if i < |values| then Ok(values[i]) else Err(NoSuchElement)
  }

  /** `last4(backStackEntry)` */
  function Last4(arguments: Option<map<string, string>>): (r: Option<string>)
    ensures r.Some? <==> arguments.Some? && KeyLast4 in arguments.value
    ensures r.Some? ==> r.value == arguments.value[KeyLast4]
  {
    GetString(arguments, KeyLast4)
  }

  /** The bundle a list of pairs gives when every key is stored in turn (a later key wins). */
  function PairsMap(pairs: seq<(string, string)>): (r: map<string, string>)
    ensures forall i :: 0 <= i < |pairs| ==> pairs[i].0 in r
    ensures forall k :: k in r ==> exists i :: 0 <= i < |pairs| && pairs[i].0 == k
    ensures |pairs| > 0 ==> r[pairs[|pairs| - 1].0] == pairs[|pairs| - 1].1
  {
    if |pairs| == 0 then map[]
    else PairsMap(pairs[..|pairs| - 1])[pairs[|pairs| - 1].0 := pairs[|pairs| - 1].1]
  }

  /** With distinct keys, a bundle built from three pairs maps each key to its value. */
  lemma PairsMapOfThree(p0: (string, string), p1: (string, string), p2: (string, string))
    requires p0.0 != p1.0 && p0.0 != p2.0 && p1.0 != p2.0
    ensures var b := PairsMap([p0, p1, p2]);
      b.Keys == {p0.0, p1.0, p2.0} && b[p0.0] == p0.1 && b[p1.0] == p1.1 && b[p2.0] == p2.1
  {
    var ps := [p0, p1, p2];
    assert ps[..2] == [p0, p1];
    assert [p0, p1][..1] == [p0];
    assert [p0][..0] == [];
    assert PairsMap([p0]) == map[p0.0 := p0.1];
    assert PairsMap([p0, p1]) == map[p0.0 := p0.1, p1.0 := p1.1];
    assert PairsMap(ps) == map[p0.0 := p0.1, p1.0 := p1.1, p2.0 := p2.1];
  }

  /** Among entries with distinct values, an entry is the first with its own value. */
  lemma FirstIndexOfDistinct(values: seq<MicrodepositVerificationMethod>, k: nat)
    requires k < |values|
    requires forall i, j :: 0 <= i < j < |values| ==> values[i].value != values[j].value
    ensures FirstIndexWithValue(values, values[k].value) == k
  {
  }

  /** `argMap`'s keys and values can be read back, as the two pairs after the referrer. */
  lemma ArgMapPairs(referrer: Option<Pane>, m: MicrodepositVerificationMethod, l: Option<string>)
    requires ',' !in m.value && ',' !in ValueText(l)
    ensures ParsableParams(ArgMap(m, l))
    ensures RoutePairs(referrer, ArgMap(m, l)) ==
      [(KeyReferrerPane, ValueText(ReferrerValue(referrer))), (KeyMicrodeposits, m.value), (KeyLast4, ValueText(l))]
  {
  }

  /** A bundle holding `m`'s value and `l` under the two keys decodes to `m` and `l`. */
  lemma DecodeManualEntryBundle(b: map<string, string>, m: MicrodepositVerificationMethod, l: string,
                                values: seq<MicrodepositVerificationMethod>, unknown: MicrodepositVerificationMethod)
    requires m in values
    requires forall i, j :: 0 <= i < j < |values| ==> values[i].value != values[j].value
    requires KeyMicrodeposits in b && b[KeyMicrodeposits] == m.value
    requires KeyLast4 in b && b[KeyLast4] == l
    ensures Microdeposits(Some(b), values, unknown) == Ok(m)
    ensures Last4(Some(b)) == Some(l)
  {
    var k :| 0 <= k < |values| && values[k] == m;
    FirstIndexOfDistinct(values, k);
  }

  /**
   * A `ManualEntrySuccess` route built from `argMap(m, l)` and read back
   * decodes to `m` again; `last4` comes back as its text, so a null `l`
   * comes back as the string "null".
   */
  lemma ManualEntrySuccessRoundTrip(referrer: Option<Pane>, m: MicrodepositVerificationMethod, l: Option<string>,
                                    values: seq<MicrodepositVerificationMethod>, unknown: MicrodepositVerificationMethod)
    requires m in values
    requires forall i, j :: 0 <= i < j < |values| ==> values[i].value != values[j].value
    requires ',' !in m.value && ',' !in ValueText(l) && ',' !in ValueText(ReferrerValue(referrer))
    ensures var parsed := ParseRoute(Route(ManualEntrySuccess, referrer, ArgMap(m, l)));
      && parsed.Some?
      && parsed.value.base == BaseRoute(ManualEntrySuccess)
      && Microdeposits(Some(PairsMap(parsed.value.pairs)), values, unknown) == Ok(m)
      && Last4(Some(PairsMap(parsed.value.pairs))) == Some(ValueText(l))
  {
    ArgMapPairs(referrer, m, l);
    ParseRouteOfRoute(ManualEntrySuccess, referrer, ArgMap(m, l));
    var p0 := (KeyReferrerPane, ValueText(ReferrerValue(referrer)));
    var p1 := (KeyMicrodeposits, m.value);
    var p2 := (KeyLast4, ValueText(l));
    PairsMapOfThree(p0, p1, p2);
    DecodeManualEntryBundle(PairsMap([p0, p1, p2]), m, ValueText(l), values, unknown);
  }

  // ------------------------------------------------------------ NavigationState

  /** `NavigationState`: nothing to do, or one navigation request. */
  datatype NavigationState =
    | Idle
    | NavigateToRoute(command: Direction, referrer: Option<Pane>, params: Params,
                      popCurrentFromBackStack: bool, id: string)

  /**
   * `NavigateToRoute(command, popCurrentFromBackStack = pop)` with the other
   * defaults; `id` stands for the random UUID the event is created with.
   */
  function NavigateTo(command: Direction, popCurrentFromBackStack: bool, id: string): (r: NavigationState)
    ensures r.NavigateToRoute? && r.command == command && r.id == id
    ensures r.popCurrentFromBackStack == popCurrentFromBackStack
  {
    NavigateToRoute(command, None, [], popCurrentFromBackStack, id)
  }

  /** The route the navigation host computes for an event: `command(referrer, params)`. */
  function EventRoute(e: NavigationState): (r: Option<string>)
    ensures r.Some? <==> e.NavigateToRoute?
    ensures r.Some? ==> BaseRoute(e.command) + "?" <= r.value
  {
    match e
    case Idle => None
    case NavigateToRoute(command, referrer, params, _, _) => Some(Route(command, referrer, params))
  }

  /** Without parameters and referrer, `addParameters` gives `base?referrer_pane=null`. */
  lemma AddNoParameters(base: string)
    ensures AddParameters(base, None, []) == base + "?referrer_pane=null"
  {
    assert Segment(KeyReferrerPane, None) == "referrer_pane=null";
  }

  /**
   * A default event has no referrer, no parameters and does not pop the
   * back stack unless asked; it routes to the bare `base?referrer_pane=null`.
   */
  lemma NavigateToDefaults(command: Direction, pop: bool, id: string)
    ensures var e := NavigateTo(command, pop, id);
      && e.referrer == None && e.params == [] && e.popCurrentFromBackStack == pop
      && EventRoute(e) == Some(BaseRoute(command) + "?referrer_pane=null")
  {
    AddNoParameters(BaseRoute(command));
  }

  /** Events are compared field by field, so the random id alone tells two of them apart. */
  lemma EventIdentity(command: Direction, pop: bool, id1: string, id2: string)
    ensures NavigateTo(command, pop, id1) == NavigateTo(command, pop, id2) <==> id1 == id2
  {
  }
}
