# Properties playground, modelled in Dafny

The Swift playground `Properties.playground` illustrates Swift's kinds of
properties. Three of its snippets keep integer state with behaviour that can
be stated, and this project models those three:

- **Stored properties** (`stored_properties.dfy`, module `StoredProperties`):
  `struct FixedLengthRange` with a mutable `firstValue` and a constant
  `length`, standing for the integers `firstValue ... firstValue + length - 1`.
- **Property observers** (`property_observers.dfy`, module `PropertyObservers`):
  `class StepCounter`, whose `totalSteps` announces each new value in `willSet`
  and reports "added N steps" in `didSet` when the total went up. The printed
  lines are values (`Notice`) that the counter appends to its `console`.
  `Replay` is the output of a whole sequence of assignments. The counter
  keeps the invariant that its console is `Replay` of every value assigned
  so far.
- **Property wrappers** (`property_wrappers.dfy`, module `PropertyWrappers`):
  `@propertyWrapper struct TwelveOrLess`, which starts at 0 and stores
  `min(newValue, 12)`, and `SmallRectangle1`, whose `height` and `width` are
  each kept in their own `TwelveOrLess` cell.

Swift's `Int` is modelled as a 64-bit integer (`swift_int.dfy`, module
`SwiftInt`). Swift arithmetic traps on overflow instead of wrapping. This
matters in one place: `totalSteps - oldValue` in `didSet` traps when the old
total is negative and the new one lies more than `Int.max` above it. The
model makes that trap an explicit `OverflowTrap` notice that ends the run.

The Swift structs are modelled as Dafny classes because the playground
changes their fields in place. Console output (`print`) is modelled as
returned or recorded values.

## Model

| member | source | states |
|---|---|---|
| `StoredProperties.MembersCount` | Properties.playground/Contents.swift:4-12 | a range of `length` items stands for exactly `length` integers (none when `length` is not positive) |
| `StoredProperties.MembersShift` | Properties.playground/Contents.swift:10-12 | moving `firstValue` by `d` moves every represented integer by `d` |
| `StoredProperties.MembersListed` | Properties.playground/Contents.swift:10-12 | the represented integers are exactly the listing `firstValue + 0, firstValue + 1, ..., firstValue + (length - 1)` |
| `StoredProperties.FixedLengthRange.constructor` | Properties.playground/Contents.swift:4-8 | the memberwise initializer stores both fields |
| `StoredProperties.FixedLengthRange.SetFirstValue` | Properties.playground/Contents.swift:5-13 | assigning `firstValue` changes only `firstValue`; the represented set is the old one shifted and keeps its size |
| `StoredProperties.RangeOfThreeItems` | Properties.playground/Contents.swift:8-13 | the range built at 0 with length 3 stands for {0,1,2}, and after `firstValue = 6` for {6,7,8}, still of length 3 |
| `PropertyObservers.Observe` | Properties.playground/Contents.swift:151-160 | one assignment always prints "about to set" with the new value first; a second line appears iff the new total exceeds the old one, and it reports new − old steps, or the overflow trap |
| `PropertyObservers.TrapNeedsNegativeOldTotal` | Properties.playground/Contents.swift:156-157 | `didSet` traps iff new − old exceeds `Int.max`, which needs a negative old total; -1 then `Int.max` traps |
| `PropertyObservers.ReplaySnoc` | Properties.playground/Contents.swift:166-175 | until a trap, each further assignment extends the console by exactly its own observer output |
| `PropertyObservers.ReplayAnnouncesEveryValue` | Properties.playground/Contents.swift:152-153 | until a trap, the "about to set" lines of a run list every assigned value, in order |
| `PropertyObservers.ReplayAddsUpIncrease` | Properties.playground/Contents.swift:155-158 | a run from a non-negative total whose values never decrease never traps, and its "added" lines sum to the final total minus the start |
| `PropertyObservers.PlaygroundTrace` | Properties.playground/Contents.swift:166-175 | assigning 200, 360, 896 from 0 prints the three announcements with deltas 200, 160, 536 |
| `PropertyObservers.StepCounter.constructor` | Properties.playground/Contents.swift:150-151 | `totalSteps` starts at 0 with nothing printed |
| `PropertyObservers.StepCounter.SetTotalSteps` | Properties.playground/Contents.swift:151-160 | the field takes the new value, the observers' output is appended to the console, and the console stays the replay of every value assigned |
| `PropertyObservers.StepCounterDemo` | Properties.playground/Contents.swift:166-175 | the playground's three assignments, done on a `StepCounter` object, produce the six notices its comments describe (announcements of 200, 360, 896; added 200, 160, 536) |
| `PropertyWrappers.Clamp` | Properties.playground/Contents.swift:193-195 | the stored value is at most 12, at most the assigned value, and is either that value or 12 |
| `PropertyWrappers.ClampCases` | Properties.playground/Contents.swift:194 | a value ≤ 12, negatives included, is stored exactly; a value > 12 is stored as 12 |
| `PropertyWrappers.ClampIdempotent` | Properties.playground/Contents.swift:189-196 | clamping twice is clamping once |
| `PropertyWrappers.TwelveOrLess.constructor` | Properties.playground/Contents.swift:185-188 | a fresh cell holds 0 |
| `PropertyWrappers.TwelveOrLess.Get` | Properties.playground/Contents.swift:190-192 | the getter returns the stored number, at most 12, and changes nothing |
| `PropertyWrappers.TwelveOrLess.Set` | Properties.playground/Contents.swift:193-195 | the setter stores `min(newValue, 12)` whatever was stored before, keeping the ≤ 12 invariant |
| `PropertyWrappers.WriteBack` | Properties.playground/Contents.swift:189-196 | reading a valid cell and assigning the value back leaves its number unchanged |
| `PropertyWrappers.SetTwiceIsSetOnce` | Properties.playground/Contents.swift:193-195 | setting a value twice leaves the cell as setting it once |
| `PropertyWrappers.SmallRectangle1.constructor` | Properties.playground/Contents.swift:199-204 | a new rectangle's height and width both read 0 |
| `PropertyWrappers.SmallRectangle1.GetHeight` | Properties.playground/Contents.swift:200 | reads the height cell, at most 12 |
| `PropertyWrappers.SmallRectangle1.GetWidth` | Properties.playground/Contents.swift:201 | reads the width cell, at most 12 |
| `PropertyWrappers.SmallRectangle1.SetHeight` | Properties.playground/Contents.swift:199-202 | assigning `height` stores `min(newValue, 12)` in its cell and leaves `width` unchanged |
| `PropertyWrappers.SmallRectangle1.SetWidth` | Properties.playground/Contents.swift:199-202 | assigning `width` stores `min(newValue, 12)` in its cell and leaves `height` unchanged |
| `PropertyWrappers.RectangleDemo` | Properties.playground/Contents.swift:204-212 | the rectangle's height reads 0, then 10 after `height = 10`, then 12 after `height = 24`; its width stays 0 |

## Left out

- `Rect`, `AlternativeRect`, `CompactRect` (computed `center`) and `Cuboid.volume`: they compute on `Double`, floating point that this model does not cover.
- `DataManager` and its `lazy var importer` of `DataImporter`: laziness is about when Swift evaluates the initial value, and there is no logic beyond the constant file name `"data.txt"`.
- The type properties of `SomeStructure`, `SomeEnumuration` and `SomeClass`: constant literals with nothing to state.
- `let rangeOfFourItems` and the commented-out assignment to it: the compile-time rule that a constant struct cannot be mutated has no run-time behaviour.
- Value semantics of the Swift structs: they are modelled as classes, and copying an instance is not modelled (the playground never copies one).
- `print` and the `UIKit` import: printed lines are modelled as returned or recorded `Notice` values, and the getter results as returned integers.
- The comment after `StepCounter` that `didSet` might not run when the same value is assigned again: Swift runs both observers on every assignment, and the model does too.
