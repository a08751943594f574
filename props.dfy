/**
 * Property bundles: the JavaScript objects that the hook reads from its caller
 * and hands to its sub-components, modelled as finite maps from property names
 * to abstract values.
 */
module Props {

  /** An SVG/JSX element, callback or other value a property can hold. Caller
      values that the hook never inspects are opaque tokens. */
  datatype Value =
    | Undefined                // `undefined` (also what reading a missing key gives)
    | Null                     // `null`
    | Bool(b: bool)
    | Num(n: int)
    | Str(s: string)
    | Fn(id: nat)              // a caller-supplied function
    | Opaque(id: nat)          // any other caller-supplied value (element, object, ...)
    | MoreGlyph                // the `<MoreHorizontalRegular />` icon element
    | EmptyFragment            // the empty fragment `<></>`
    | OwnOpenChangeHandler     // the hook's own open-change handler

  type Props = map<string, Value>

  /** Property access `p[k]`: a missing key reads as `undefined`. */
  function Get(p: Props, k: string): (v: Value)
    ensures k in p ==> v == p[k]
    ensures k !in p ==> v == Undefined
    ensures v != Undefined ==> k in p
  {
    if k in p then p[k] else Undefined
  }

  /** The object spread `{ ...defaults, ...overrides }`: every key of either
      side, with the right-hand side winning on shared keys. */
  function Merge(defaults: Props, overrides: Props): (r: Props)
    ensures r.Keys == defaults.Keys + overrides.Keys
    ensures forall k :: k in overrides ==> r[k] == overrides[k]
    ensures forall k :: k in defaults && k !in overrides ==> r[k] == defaults[k]
  {
    defaults + overrides
  }

  /** Rest-destructuring `const { a, b, ...rest } = p`: `rest` holds every own
      key of `p` except the named ones, with unchanged values. */
  function Omit(p: Props, names: set<string>): (rest: Props)
    ensures rest.Keys == p.Keys - names
    ensures forall k :: k in rest ==> rest[k] == p[k]
  {
    map k | k in p && k !in names :: p[k]
  }

  /** Spreading the same overrides twice changes nothing more. */
  lemma MergeIdempotent(defaults: Props, overrides: Props)
    ensures Merge(Merge(defaults, overrides), overrides) == Merge(defaults, overrides)
  {
  }
}
