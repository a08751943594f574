# AvatarGroupPopover render state, in Dafny

This project models `useAvatarGroupPopover_unstable`, the hook that computes the render state of the
avatar group's overflow popover. The popover is the "show more" button after the visible avatars of a
group. It opens a popover that lists the people not shown.

The hook's inputs are modelled explicitly:

- the group context's `size` and `layout` (`GroupContext`; `size` falls back to `defaultAvatarGroupSize`, which is a parameter);
- the caller's props, as a finite map from property names to abstract values (`Props.Props`);
- the number of children (`childCount`);
- the current open flag (`popoverOpen`), which the component library's controllable state resolves.

From these, `AvatarGroupPopover.UseAvatarGroupPopover` builds the state:

- the effective size;
- the effective indicator (an explicit `indicator` wins; otherwise `icon` below size 24 and `count` from 24 up);
- the trigger button's content: `null` in the pie layout, the "more" glyph for the icon indicator, otherwise `"+n"` or `"99+"`;
- the popover root's props: defaults `children: <></>`, `size: 'small'`, `trapFocus: true`, overridden by the caller's props except `indicator`, `count` and `children`, with `open` and `onOpenChange` always pinned;
- the shorthand requests for the four sub-parts. Each request records the caller's shorthand, `required: true` and the default props.

`AvatarGroupPopover.PopoverChangeHandler` is the popover change handler, written as a class. Its
`trace` field records the calls the handler makes, in order. It first calls the caller's
`onOpenChange` (only when it is a function) with the same event and data. It then calls the state
setter with `data.open`.

The decimal rendering of the count (`${count}`) is modelled in module `Decimal`, together with a
parser. The rendering is exact, which matches JavaScript for integral counts of magnitude below 2^53. The parser shows that the label `"+n"` determines `n`.

Modules: `Wrappers` (Option), `Props` (values, maps, spread and rest-destructuring), `Decimal`, `AvatarGroupPopover`.

The props a caller may pass follow their declared types: `indicator` is `undefined`, `'icon'` or
`'count'`; `count` is `undefined` or a number; `onOpenChange` is `undefined`, `null` or a function.
This is the `WellTyped` precondition. A destructuring default replaces only `undefined`, so a key
that is absent and a key whose value is `undefined` behave alike. An object spread copies a key even
when its value is `undefined`, so such a key still overrides a root default.

## Model

| member | source | states |
|---|---|---|
| `Props.Get` | packages/react-components/react-avatar/src/components/AvatarGroupPopover/useAvatarGroupPopover.tsx:23-36 | Reading a property gives its value when the key is present and `undefined` when it is absent, so a defined value always comes from the map. The destructuring defaults, `restOfProps.onOpenChange` and the four sub-part shorthands (lines 71-90) are read this way. |
| `Props.Merge` | packages/react-components/react-avatar/src/components/AvatarGroupPopover/useAvatarGroupPopover.tsx:62-70 | An object spread contains the keys of both sides. A key of the overrides has the override's value. A key only in the defaults keeps the default. |
| `Props.Omit` | packages/react-components/react-avatar/src/components/AvatarGroupPopover/useAvatarGroupPopover.tsx:22-27 | Rest-destructuring keeps exactly the keys not named, with unchanged values. |
| `Props.MergeIdempotent` | packages/react-components/react-avatar/src/components/AvatarGroupPopover/useAvatarGroupPopover.tsx:62-70 | Spreading the same overrides a second time changes nothing. |
| `Decimal.NatToDigits` | packages/react-components/react-avatar/src/components/AvatarGroupPopover/useAvatarGroupPopover.tsx:46 | A natural number renders as at least one decimal digit, with no leading zero except for 0 itself. It has more than one digit exactly from 10 up. |
| `Decimal.DigitsRoundTrip` | packages/react-components/react-avatar/src/components/AvatarGroupPopover/useAvatarGroupPopover.tsx:46 | Reading the digits of `n` back gives `n`. |
| `Decimal.IntToString` | packages/react-components/react-avatar/src/components/AvatarGroupPopover/useAvatarGroupPopover.tsx:46 | An integer renders as a non-empty string in canonical form. It starts with a minus sign exactly when the integer is negative, and the sign is followed by digits that do not start with 0. A non-negative integer renders as digits with no leading zero, except for 0 itself. |
| `Decimal.IntToStringRoundTrip` | packages/react-components/react-avatar/src/components/AvatarGroupPopover/useAvatarGroupPopover.tsx:46 | Parsing the rendering of any integer gives the integer back. |
| `Decimal.CanonicalDigitsUnique` | packages/react-components/react-avatar/src/components/AvatarGroupPopover/useAvatarGroupPopover.tsx:46 | A digit string with no leading zero is exactly the rendering of its own value. |
| `Decimal.CanonicalIntUnique` | packages/react-components/react-avatar/src/components/AvatarGroupPopover/useAvatarGroupPopover.tsx:46 | A canonical integer text that parses to `n` is exactly the rendering of `n`, so canonical form and value together determine the text. |
| `Decimal.IntToStringInjective` | packages/react-components/react-avatar/src/components/AvatarGroupPopover/useAvatarGroupPopover.tsx:46 | Distinct integers render as distinct strings. |
| `AvatarGroupPopover.GivenIndicator` | packages/react-components/react-avatar/src/components/AvatarGroupPopover/useAvatarGroupPopover.tsx:23 | The caller gave no indicator exactly when the `indicator` prop is `undefined` or absent. `'icon'` gives the icon, `'count'` gives the count. |
| `AvatarGroupPopover.GivenCount` | packages/react-components/react-avatar/src/components/AvatarGroupPopover/useAvatarGroupPopover.tsx:24 | The caller gave no count exactly when the `count` prop is `undefined` or absent. Otherwise the given count is the prop's number. |
| `AvatarGroupPopover.EffectiveSize` | packages/react-components/react-avatar/src/components/AvatarGroupPopover/useAvatarGroupPopover.tsx:20 | The size is the context's size when it has one, else `defaultAvatarGroupSize`. |
| `AvatarGroupPopover.EffectiveIndicator` | packages/react-components/react-avatar/src/components/AvatarGroupPopover/useAvatarGroupPopover.tsx:23 | An explicit indicator always wins. Without one, the indicator is the icon exactly when the size is below 24. |
| `AvatarGroupPopover.EffectiveCount` | packages/react-components/react-avatar/src/components/AvatarGroupPopover/useAvatarGroupPopover.tsx:24 | An explicit count wins. Without one, the count is the number of children. |
| `AvatarGroupPopover.CountLabel` | packages/react-components/react-avatar/src/components/AvatarGroupPopover/useAvatarGroupPopover.tsx:46 | The label is `"99+"` exactly when the count is above 99. Otherwise it is `+` followed by the canonical decimal rendering of the count, which parses back to the count. |
| `AvatarGroupPopover.TriggerButtonChildren` | packages/react-components/react-avatar/src/components/AvatarGroupPopover/useAvatarGroupPopover.tsx:40-47 | The content is `null` exactly in the pie layout. It is the "more" glyph exactly off pie with the icon indicator. It is a string exactly off pie with the count indicator, and then that string is the count label. |
| `AvatarGroupPopover.RestOfProps` | packages/react-components/react-avatar/src/components/AvatarGroupPopover/useAvatarGroupPopover.tsx:22-27 | The remaining props are the caller's props without `indicator`, `count` and `children`, values unchanged. |
| `AvatarGroupPopover.RootProps` | packages/react-components/react-avatar/src/components/AvatarGroupPopover/useAvatarGroupPopover.tsx:62-70 | The root holds exactly the default keys, the caller's keys other than the three destructured ones, and `open`/`onOpenChange`. `open` is the resolved open flag and `onOpenChange` is the hook's handler, whatever the caller passed. `children` is always the empty fragment, and `indicator`/`count` never appear. Every other caller key keeps the caller's value. A default the caller does not pass keeps its value. |
| `AvatarGroupPopover.TriggerButtonRequest` | packages/react-components/react-avatar/src/components/AvatarGroupPopover/useAvatarGroupPopover.tsx:71-77 | The trigger button is required. Its defaults are exactly the computed children and `type: 'button'`. |
| `AvatarGroupPopover.ContentRequest` | packages/react-components/react-avatar/src/components/AvatarGroupPopover/useAvatarGroupPopover.tsx:78-86 | The content list is required. Its defaults are exactly `aria-label: 'Overflow'`, the caller's original children, `role: 'list'` and `tabIndex: 0`. |
| `AvatarGroupPopover.PopoverSurfaceRequest` | packages/react-components/react-avatar/src/components/AvatarGroupPopover/useAvatarGroupPopover.tsx:87-89 | The popover surface is required and has no default props. |
| `AvatarGroupPopover.TooltipRequest` | packages/react-components/react-avatar/src/components/AvatarGroupPopover/useAvatarGroupPopover.tsx:90-96 | The tooltip is required. Its defaults are exactly `content: 'View more people.'` and `relationship: 'label'`. |
| `AvatarGroupPopover.UseAvatarGroupPopover` | packages/react-components/react-avatar/src/components/AvatarGroupPopover/useAvatarGroupPopover.tsx:19-98 | The state carries the given open flag, the context's layout, the effective size and indicator, and the fixed component types. Its root is the pinned merge. Its trigger button request is the caller's `triggerButton` shorthand, required, with defaults exactly the computed children and `type: 'button'`. The trigger content is `null` exactly in pie, the glyph exactly off pie with the icon indicator, and otherwise the label of the effective count. All four sub-parts are required. |
| `AvatarGroupPopover.HandlerEffects` | packages/react-components/react-avatar/src/components/AvatarGroupPopover/useAvatarGroupPopover.tsx:35-38 | A change makes two calls when the caller's `onOpenChange` is a function and only the setter call otherwise. The caller's call comes first, with the same event and data. The last call is the setter with `data.open`. |
| `AvatarGroupPopover.PopoverChangeHandler.constructor` | packages/react-components/react-avatar/src/components/AvatarGroupPopover/useAvatarGroupPopover.tsx:35-36 | The handler closes over the remaining props' `onOpenChange` and has made no calls yet. |
| `AvatarGroupPopover.PopoverChangeHandler.HandleOnPopoverChange` | packages/react-components/react-avatar/src/components/AvatarGroupPopover/useAvatarGroupPopover.tsx:35-38 | One change appends exactly the calls `HandlerEffects` describes to the trace, in order, and keeps the handler valid. |
| `AvatarGroupPopover.SmallGroupShowsGlyph` | packages/react-components/react-avatar/src/components/AvatarGroupPopover/useAvatarGroupPopover.tsx:20-47 | With size 16, no layout and no explicit indicator, the indicator is the icon and the trigger shows the glyph, whatever the count. |
| `AvatarGroupPopover.LargeCountSaturates` | packages/react-components/react-avatar/src/components/AvatarGroupPopover/useAvatarGroupPopover.tsx:20-47 | With size 32, the stack layout and a count of 150, the indicator is the count and the trigger shows `"99+"`. |
| `AvatarGroupPopover.CountLabelInjective` | packages/react-components/react-avatar/src/components/AvatarGroupPopover/useAvatarGroupPopover.tsx:46 | Counts up to 99 have pairwise distinct labels. |
| `AvatarGroupPopover.TwoChanges` | packages/react-components/react-avatar/src/components/AvatarGroupPopover/useAvatarGroupPopover.tsx:35-38 | Two changes, each with a caller callback, record the caller, setter, caller, setter calls in that order. |

## Left out

- The dialog story (`DialogControllingOpenAndClose.stories.tsx`) composes UI elements and has no logic of its own.
- `useControllableState`: the open flag is an input. The model does not state how `open`, `defaultOpen` and the initial `false` decide it, or what the setter stores. The setter is an abstract call recorded in the trace. Its source is not part of this model.
- `resolveShorthand`: each sub-part is recorded as the request the hook makes (shorthand, `required: true`, default props). How the library merges a shorthand with its defaults is not modelled, because its source is not part of this model.
- The context lookup (`useContextSelector`), `React.Children.count` and the JSX elements are inputs or opaque tokens. The glyph, the empty fragment and the hook's handler are the values `MoreGlyph`, `EmptyFragment` and `OwnOpenChangeHandler`.
- The concrete value of `defaultAvatarGroupSize` is not part of this model; it is a parameter.
- The set of avatar sizes is not part of this model, so sizes are arbitrary integers. Layouts are `spread`, `stack` and `pie`, or absent.
- Rendering, styling and accessibility behaviour belong to the host framework.
- `CountLabel`: a count is an integer, so these number values are not modelled: fractional counts, `NaN` (label `"+NaN"`), `Infinity` (label `"99+"`), `-Infinity` (label `"+-Infinity"`), integral counts of magnitude above 2^53 (JavaScript prints `-(2**64)` as `-18446744073709552000`, the model as `-18446744073709551616`), and the exponent notation JavaScript uses for magnitudes from 10^21 up. Only negative counts reach the last two, because counts above 99 show `"99+"`.
- `Decimal.IntToString`: renders the exact digits of any integer. JavaScript renders integral numbers above 2^53 in magnitude with the shortest digits that round-trip to the same number, padded with zeros, and from 10^21 up in exponent notation. Floating-point numbers are not modelled.
- `UseAvatarGroupPopover`: props outside their declared types (for example `indicator: 'dots'`) are excluded by `WellTyped`. JavaScript would still run on them.
- `PopoverChangeHandler.HandleOnPopoverChange`: a caller callback that throws would stop the setter call. Exceptions are not modelled.
- The caller's `open` and `defaultOpen` props also reach the root unchanged apart from `open` being pinned. The model keeps this, as the spread does; its consequences for the popover are the library's.
