/** Reading the upstream "actions" lists of an insight row: the first-match lookup by action-type
    substring (`get_action_value` / `get_cost_per_action`) and the `or` chains over conversion
    aliases that produce `purchases` and `cost_per_purchase`. */
module Actions {
  import opened Wrappers
  import opened Text

  /** One entry of an `actions`, `cost_per_action_type` or video-metric list. A missing
      `action_type` key reads as "" (the source looks it up with that default); a missing
      `value` key reads as `None`. */
  datatype Action<V> = Action(actionType: string, value: Option<V>)

  /** `query in action.get('action_type', '')`: substring, not equality. */
  predicate Matches<V>(a: Action<V>, query: string) {
    Contains(query, a.actionType)
  }

  /** Position of the first entry, in list order, whose action type contains `query`. */
  function FirstMatch<V>(actions: seq<Action<V>>, query: string): (r: Option<nat>)
    ensures r.Some? ==> r.value < |actions| && Matches(actions[r.value], query)
    ensures r.Some? ==> forall j :: 0 <= j < r.value ==> !Matches(actions[j], query)
    ensures r.None? <==> forall j :: 0 <= j < |actions| ==> !Matches(actions[j], query)
  {
    if |actions| == 0 then None
    else if Matches(actions[0], query) then Some(0)
    else
      match FirstMatch(actions[1..], query)
      case None => None
      case Some(k) => Some(k + 1)
  }

  /** `get_action_value(actions, query)`, and equally `get_cost_per_action`, whose body is the
      same: `None` for an empty list, else the value of the first matching entry, else `None`. */
  function ActionValue<V>(actions: seq<Action<V>>, query: string): (r: Option<V>)
    ensures (forall j :: 0 <= j < |actions| ==> !Matches(actions[j], query)) ==> r == None
    ensures forall k :: (0 <= k < |actions| && Matches(actions[k], query)
      && (forall j :: 0 <= j < k ==> !Matches(actions[j], query))) ==> r == actions[k].value
  {
    if |actions| == 0 then None
    else
      match FirstMatch(actions, query)
      case Some(k) => actions[k].value
      case None => None
  }

  /** The conversion events tried, in priority order, for `purchases` and `cost_per_purchase`. */
  const PurchaseAliases: seq<string> :=
    ["purchase", "offsite_conversion.fb_pixel_purchase", "offsite_conversion", "onsite_conversion"]

  /** The standard event then its pixel variant, for `adds_to_cart`. */
  const AddToCartAliases: seq<string> := ["add_to_cart", "offsite_conversion.fb_pixel_add_to_cart"]

  /** The standard event then its pixel variant, for `content_views`. */
  const ViewContentAliases: seq<string> := ["view_content", "offsite_conversion.fb_pixel_view_content"]

  /** The standard event then its pixel variant, for `checkouts_initiated`. */
  const CheckoutAliases: seq<string> :=
    ["initiate_checkout", "offsite_conversion.fb_pixel_initiate_checkout"]

  /** The lookup result for every alias, in alias order. */
  function AliasValues(actions: seq<Action<string>>, aliases: seq<string>): (vs: seq<Option<string>>)
    ensures |vs| == |aliases|
    ensures forall k :: 0 <= k < |aliases| ==> vs[k] == ActionValue(actions, aliases[k])
  {
    seq(|aliases|, k requires 0 <= k < |aliases| => ActionValue(actions, aliases[k]))
  }

  /** `get_action_value(xs, a0) or get_action_value(xs, a1) or ...`: the lookup for the first
      alias whose value is truthy; when none is, the (falsy) lookup for the last alias. */
  function AliasChain(actions: seq<Action<string>>, aliases: seq<string>): (r: Option<string>)
    requires |aliases| > 0
    ensures forall k ::
      && 0 <= k < |aliases| && Truthy(ActionValue(actions, aliases[k]))
      && (forall j :: 0 <= j < k ==> !Truthy(ActionValue(actions, aliases[j])))
      ==> r == ActionValue(actions, aliases[k])
    ensures (forall k :: 0 <= k < |aliases| ==> !Truthy(ActionValue(actions, aliases[k])))
      ==> r == ActionValue(actions, aliases[|aliases| - 1])
    ensures Truthy(r) <==> exists k :: 0 <= k < |aliases| && Truthy(ActionValue(actions, aliases[k]))
  {
    var vs := AliasValues(actions, aliases);
    OrChain(vs)
  }

  // ---------------------------------------------------------------------------
  // Properties of the lookup
  // ---------------------------------------------------------------------------

  /** A query contained in another query finds an entry no later than the longer one does. */
  lemma FirstMatchSubsumed<V>(actions: seq<Action<V>>, short: string, long: string)
    requires Contains(short, long)
    requires FirstMatch(actions, long).Some?
    ensures FirstMatch(actions, short).Some?
    ensures FirstMatch(actions, short).value <= FirstMatch(actions, long).value
  {
    var k := FirstMatch(actions, long).value;
    ContainsTransitive(short, long, actions[k].actionType);
  }

  /** `purchase` is a substring of `offsite_conversion.fb_pixel_purchase`, so the second alias
      never finds an entry the first one misses: the pixel alias can only contribute when the
      first entry mentioning "purchase" has a falsy value. */
  lemma PixelPurchaseShadowed<V>(actions: seq<Action<V>>)
    requires FirstMatch(actions, PurchaseAliases[1]).Some?
    ensures FirstMatch(actions, PurchaseAliases[0]).Some?
    ensures FirstMatch(actions, PurchaseAliases[0]).value <= FirstMatch(actions, PurchaseAliases[1]).value
  {
    assert OccursAt(PurchaseAliases[0], PurchaseAliases[1], 28);
    ContainsAt(PurchaseAliases[0], PurchaseAliases[1], 28);
    FirstMatchSubsumed(actions, PurchaseAliases[0], PurchaseAliases[1]);
  }

  /** When no action type mentions "purchase", the pixel-purchase alias finds nothing either. */
  lemma NoPurchaseNoPixelPurchase<V>(actions: seq<Action<V>>)
    requires FirstMatch(actions, PurchaseAliases[0]).None?
    ensures FirstMatch(actions, PurchaseAliases[1]).None?
  {
    if FirstMatch(actions, PurchaseAliases[1]).Some? {
      PixelPurchaseShadowed(actions);
    }
  }

  /** When no action type mentions "purchase", `purchases` comes from the generic offsite and
      onsite events alone. */
  lemma PurchasesWithoutPurchaseEvent(actions: seq<Action<string>>)
    requires FirstMatch(actions, PurchaseAliases[0]).None?
    ensures AliasChain(actions, PurchaseAliases)
      == Or(ActionValue(actions, PurchaseAliases[2]), ActionValue(actions, PurchaseAliases[3]))
  {
    NoPurchaseNoPixelPurchase(actions);
    var vs := AliasValues(actions, PurchaseAliases);
    assert vs[0] == None && vs[1] == None;
    assert vs == [vs[0], vs[1], vs[2], vs[3]];
    OrChainFour(vs[0], vs[1], vs[2], vs[3]);
  }

  /** A four-operand `or` chain, evaluated from the left. */
  lemma OrChainFour(a: Option<string>, b: Option<string>, c: Option<string>, d: Option<string>)
    ensures OrChain([a, b, c, d]) == Or(Or(Or(a, b), c), d)
  {
    assert [a, b, c, d][..3] == [a, b, c];
    assert [a, b, c][..2] == [a, b];
    assert [a, b][..1] == [a];
    assert OrChain([a, b]) == Or(a, b);
    assert OrChain([a, b, c]) == Or(Or(a, b), c);
  }

  /** Priority is decided by truthiness of the upstream string, not by numeric value: a
      standard purchase reported as "0" wins over a non-zero pixel purchase. */
  lemma ZeroPurchaseStringWins()
    ensures AliasChain([Action("purchase", Some("0")),
                        Action("offsite_conversion.fb_pixel_purchase", Some("7"))], PurchaseAliases)
         == Some("0")
  {
    var actions := [Action("purchase", Some("0")),
                    Action("offsite_conversion.fb_pixel_purchase", Some("7"))];
    assert OccursAt("purchase", "purchase", 0);
    ContainsAt("purchase", "purchase", 0);
    assert FirstMatch(actions, PurchaseAliases[0]) == Some(0);
  }

  /** A row reporting only the pixel purchase resolves `purchases` to its value (found already
      by the first alias, through substring matching). */
  lemma PixelOnlyPurchaseResolved()
    ensures AliasChain([Action("offsite_conversion.fb_pixel_purchase", Some("7"))], PurchaseAliases)
         == Some("7")
  {
    var actions := [Action("offsite_conversion.fb_pixel_purchase", Some("7"))];
    assert OccursAt(PurchaseAliases[0], PurchaseAliases[1], 28);
    ContainsAt(PurchaseAliases[0], PurchaseAliases[1], 28);
    assert FirstMatch(actions, PurchaseAliases[0]) == Some(0);
  }
}
