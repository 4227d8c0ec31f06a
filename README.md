# Sticky element decision engine, in Dafny

This project models the logic of the `sticky-element` Ember component
(`addon/components/sticky-element.js`). The component keeps an element
fixed to the top or the bottom of the viewport. It decides this from two
sentinels at the top and bottom edges of the element's parent.

- **State.** The configured offsets `top` (an integer, default 0) and
  `bottom` (an integer, or `null` to disable sticking to the bottom). The
  two boundary trackers `parentTop` and `parentBottom`, each `'in'`,
  `'top'` or `'bottom'`. The measured `ownHeight`, `ownWidth` and
  `windowHeight`, all 0 until measured.
- **Actions.** `parentTopEntered`, `parentTopExited(top)`,
  `parentBottomEntered` and `parentBottomExited(top)` move the trackers.
  `updateDimension` stores fresh measurements. `parentTopExited` calls it
  before it changes the tracker; `parentBottomExited` does not.
- **Derived values.** `stickToBottom`, `isStickyBottom`, `isStickyTop`,
  `isSticky`, `offsetBottom`, and the inline style strings `style` (the
  placeholder) and `containerStyle` (the fixed container).

Layout of the project:

- `wrappers.dfy` (`Wrappers`): `Option`. It stands for a computed property
  that returns a string or `undefined`, and for `bottom`, which may be `null`.
- `decimal.dfy` (`Decimal`): the text a template literal produces for an
  integer (`${n}`), and `ReadInt`, a reader that gets the integer back.
- `css.dfy` (`Css`): the two style string formats, and readers that
  recover the geometry a style string carries.
- `sticky_state.dfy` (`StickyState`): the state as a value, every derived
  property as a function of it, and the lemmas about them. `StickyMode` is
  an independent case analysis of the layout decision. The lemmas check the
  component's three predicates against it.
- `sticky_element.dfy` (`StickyElementComponent`): the component as a class
  with the source's mutable fields and one method per action. `Snapshot()`
  gives the fields as a `StickyState.State`. Each method's contract
  describes the new fields and the derived values that follow from them.

Notes on the model:

- `bottom` is `Option<int>`, and `stickToBottom` holds exactly when it is
  `Some`. Ember's `notEmpty` treats the number 0 as present. So
  `bottom == Some(0)` enables sticking to the bottom, as the component's own
  documentation says.
- `offsetBottom` is computed even when `bottom` is `null`. In JavaScript,
  `null` counts as 0 in a subtraction, so the result is then
  `windowHeight - top - ownHeight`. The model does the same.
- A fresh component is already stuck to the bottom when `bottom` is set. Both
  trackers start at `'bottom'`, and `isStickyBottom` needs only
  `parentBottom == 'bottom'` and `parentTop != 'in'`.
  `StickyState.InitialState` and the constructor state this.

## Model

| member | source | states |
|---|---|---|
| `Decimal.NatToString` | addon/components/sticky-element.js:124-141 | The text of a natural number is a non-empty run of digits without a leading zero. |
| `Decimal.IntToString` | addon/components/sticky-element.js:124-141 | The text of an integer starts with a digit exactly when the integer is non-negative, and with a minus sign otherwise. |
| `Decimal.ReadIntRoundTrip` | addon/components/sticky-element.js:124-141 | Reading back the text of any integer, followed by anything that is not a digit, gives the same integer and the same remainder. |
| `Decimal.IntToStringInjective` | addon/components/sticky-element.js:124-141 | Different integers render as different text. |
| `Css.ElementStyleRoundTrip` | addon/components/sticky-element.js:124-141 | `Css.ElementStyle` builds the line-124 string. The string `height: {h}px; width: {w}px` reads back as exactly `(h, w)`. |
| `Css.FixedStyleRoundTrip` | addon/components/sticky-element.js:137-141 | `Css.FixedStyle` builds the strings of lines 137 and 141. The string `position: fixed; {top or bottom}: {offset}px; width: {w}px` reads back as exactly its edge, offset and width. |
| `StickyState.StickyMode` | addon/components/sticky-element.js:36-58 | A case analysis on `parentTop` (`'in'` never sticks; otherwise the bottom wins when `parentBottom` is `'bottom'` and `bottom` is set). It agrees in both directions with the predicates that model the computed properties: `StickyState.IsStickyTop` (`isStickyTop`, lines 44-46), `StickyState.IsStickyBottom` (`isStickyBottom`, lines 54-58), and the negation of `StickyState.IsSticky` (`isSticky`, line 36). |
| `StickyState.MutualExclusion` | addon/components/sticky-element.js:36-58 | `IsStickyTop` and `IsStickyBottom` never hold together. Bottom wins: past the top, with the bottom boundary below and `StickToBottom`, the element is sticky to the bottom and not to the top. `IsSticky` holds exactly when one of them does. |
| `StickyState.BottomDisabled` | addon/components/sticky-element.js:44-58 | With `bottom` null, `stickToBottom` (`StickyState.StickToBottom`, line 94) and `isStickyBottom` are false, `isSticky` holds iff `parentTop` is `'top'`, and the container style is the fixed-top style or nothing. |
| `StickyState.ZeroBottomEnables` | addon/components/sticky-element.js:20-28 | `bottom == 0` enables sticking to the bottom. Past the top with the bottom boundary below, the container is then fixed at bottom offset 0. |
| `StickyState.TopInsideSuppresses` | addon/components/sticky-element.js:44-58 | With `parentTop == 'in'`, neither sticky flag holds and neither style is set, whatever `parentBottom` is. |
| `StickyState.InitialState` | addon/components/sticky-element.js:65-101 | `StickyState.Initial` is the state with the field defaults of lines 65-101. In it `isStickyTop` is false and `isStickyBottom` equals `stickToBottom`. `style` is absent. With `bottom` set, the container is fixed to the bottom with width 0. |
| `StickyState.OffsetBottom` | addon/components/sticky-element.js:108-111 | `offsetBottom == windowHeight - top - ownHeight - bottom`, with a null `bottom` read as 0 (`StickyState.NumericValue`, the coercion that the subtraction at line 110 applies). |
| `StickyState.OffsetBottomIsDrop` | addon/components/sticky-element.js:108-111 | With `bottom` set, `offsetBottom` is the distance from the element's top edge when fixed to the top down to its top edge when fixed to the bottom. When it is stuck to the bottom, the box read back from `containerStyle` sits at `top + offsetBottom`. |
| `StickyState.Style` | addon/components/sticky-element.js:120-126 | `style` is present iff `ownHeight > 0` and the element is sticky. It is then `Css.ElementStyle(ownHeight, ownWidth)`, that is `height: {ownHeight}px; width: {ownWidth}px`, and reads back as exactly those dimensions. |
| `StickyState.ContainerStyle` | addon/components/sticky-element.js:135-144 | `containerStyle` is present iff `isSticky`. When `isStickyBottom`, it is `Css.FixedStyle` at the bottom edge with offset `bottom`. Otherwise, when `isStickyTop`, it is `Css.FixedStyle` at the top edge with offset `top`. Either way it uses `ownWidth`, and it reads back as the box for the current sticky mode. |
| `StickyState.StyleFollowsContainer` | addon/components/sticky-element.js:120-144 | The placeholder style is present exactly when the container style is and `ownHeight > 0`. The two then carry the same width. |
| `StickyState.StickyTopExample` | addon/components/sticky-element.js:120-144 | With `top` 10, `bottom` null, size 50 by 200 and `parentTop == 'top'`: sticky, `style` is `height: 50px; width: 200px` and `containerStyle` is `position: fixed; top: 10px; width: 200px`. |
| `StickyState.TopInsideExample` | addon/components/sticky-element.js:54-58 | With `bottom` 20, `parentTop == 'in'` and `parentBottom == 'bottom'`, neither `isStickyBottom` nor `isSticky` holds. |
| `StickyElementComponent.StickyElement.constructor` | addon/components/sticky-element.js:10-101 | A new component holds the given offsets, both trackers at `'bottom'` and zero dimensions. It is not sticky to the top, is sticky to the bottom iff `bottom` is set, and has no placeholder style. |
| `StickyElementComponent.StickyElement.UpdateDimension` | addon/components/sticky-element.js:150-154 | Overwrites the three dimensions with the measured values and nothing else, so the sticky mode does not change. |
| `StickyElementComponent.StickyElement.ParentTopEntered` | addon/components/sticky-element.js:162-165 | Sets `parentTop` to `'in'` and nothing else. Afterwards the element flows normally and neither style is set. A repeated signal changes nothing. |
| `StickyElementComponent.StickyElement.ParentTopExited` | addon/components/sticky-element.js:166-171 | Overwrites the three dimensions, then sets `parentTop` to `'top'` if `top`, else to `'bottom'`. `parentBottom` and the offsets are unchanged. Exiting at the top makes the element sticky, and both styles then use the fresh measurements. Exiting at the bottom never makes it sticky to the top. |
| `StickyElementComponent.StickyElement.ParentBottomEntered` | addon/components/sticky-element.js:172-175 | Sets `parentBottom` to `'in'` and nothing else. Afterwards the element is not sticky to the bottom, and is sticky iff `parentTop` is `'top'`. |
| `StickyElementComponent.StickyElement.ParentBottomExited` | addon/components/sticky-element.js:176-179 | Sets only `parentBottom`, to `'top'` if `top`, else to `'bottom'`, without measuring. A repeated signal changes nothing. Exiting at the top ends bottom stickiness. |
| `StickyElementComponent.ScrollPastTop` | addon/components/sticky-element.js:166-171 | A client of the class contracts. A component with `top` 10 and no `bottom` leaves the top boundary at the top while measuring 800, 50 and 200. It then renders `position: fixed; top: 10px; width: 200px` and `height: 50px; width: 200px`. |

## Left out

- Ember wiring (`Component.extend`, `layout`, `attributeBindings`, `classNameBindings`, `_super`): these are framework declarations with no behaviour of their own.
- DOM measurement through jQuery (`$(window).height()`, `this.$().height()`, `this.$().width()`): these are foreign calls. The measured values are parameters of `UpdateDimension` and `ParentTopExited`.
- `didInsertElement` and its `scheduleOnce('afterRender', …)`: run-loop scheduling. Its effect is one call of `UpdateDimension` after rendering.
- `Ember.String.htmlSafe`: it only marks a string as safe HTML, so the styles are plain strings.
- `console.log` in `parentBottomExited`: it has no effect on the state.
- Computed-property caching and dependency keys: every derived value is a function of the current fields. The source lists no `ownWidth` dependency for `containerStyle`. A cached container style could therefore keep an old width after re-measuring while the sticky flags stay the same. The model does not capture this staleness.
- Pixel values are integers. Fractional values from jQuery are not modelled, and neither is JavaScript's exponent notation for numbers of 10^21 or more.
- `bottom` is an integer or null, as the component's prose documentation asks ("Use 0 or any other appropriate offset"), although its type annotation says `boolean|null`. Other values the host could pass (booleans, `undefined`, strings) are not modelled. Ember's `notEmpty` treats `undefined` and `''` as empty, while `false` counts as present and would render `bottom: falsepx`.
- Changing `top` or `bottom` after creation, through the host re-rendering the component with new attributes: the class fixes them at construction.
