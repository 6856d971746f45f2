# Icon name resolution

A Dafny model of the `Icon` component of a React design system. `Icon`
turns an icon name into a renderer and the props that renderer gets:

- It merges three icon packs into one table: Feather, then Phosphor, then Ant.
  When two packs define the same name, the pack spread later wins.
- It looks the name up in a two-entry brand table (`MiaPlatform`,
  `MiaPlatformColored`) first. Only a name that is not a brand name goes to
  the merged packs (except names inherited from `Object.prototype`; see
  Findings).
- When no table has the name, it logs one error naming the icon and renders
  nothing. It does not throw. (Names inherited from `Object.prototype` are
  the exception; see Findings.)
- On a hit, `color` and `size` each fall back to the ambient icon context with
  `??`. One size value goes to `height`, `size` and `width`. Both `alt` and
  `aria-label` are the name, `role` is `img`, and `className` comes from the
  context.
- `defaultProps` sets `size` to 24 whenever the prop is missing. Color has no
  such default.

Modules:

- `Wrappers`: `Option` and the `??` operator (`Coalesce`).
- `IconRegistry`: renderer handles, the brand table, the pack merge and the
  name lookup.
- `Icon`: props, context, the rendered element, the error log, the
  default-prop step and the component itself.

Modelling choices:

- The icon packs are parameters (`Packs`), because their contents are foreign.
  Renderers are opaque handles.
- The context is a plain parameter. Its `size` is a CSS length string, as
  `react-icons` declares it.
- The `log.error` call is the `log` sequence of the result.
- The default-prop step is the explicit function `ApplyDefaultProps`.
  `Render` is the corrected component rendered normally:
  `ApplyDefaultProps`, then `IconBody`. `RenderAsWritten` is what a normal
  `<Icon/>` does as written: `ApplyDefaultProps`, then `IconBodyAsWritten`.
- Every operation is a function, so resolution depends only on its arguments and
  gives the same result for the same arguments.

## Model

| member | source | states |
|---|---|---|
| `IconRegistry.MergePacks` | src/components/Icon/Icon.tsx:46-50 | The merged table holds every name of every pack. Ant's renderer wins over Phosphor's, and Phosphor's over Feather's. |
| `IconRegistry.OnlyPackWins` | src/components/Icon/Icon.tsx:46-50 | A name defined by exactly one pack maps, after the merge, to that pack's renderer. |
| `IconRegistry.Lookup` | src/components/Icon/Icon.tsx:83-85 | A brand name yields its brand asset. Any other name yields the highest-precedence pack's renderer. The result is missing exactly when no table defines the name. Membership means own keys (the corrected form of line 83; see Findings). |
| `IconRegistry.LookupAsWritten` | src/components/Icon/Icon.tsx:83-85 | The lookup with JavaScript `in` on `customIcons`. It equals `Lookup` for every name that is not an `Object.prototype` member. A prototype member that is not a brand name resolves to the inherited property. |
| `Icon.MessageNamesIcon` | src/components/Icon/Icon.tsx:88 | The miss message contains the requested name. |
| `Icon.Describe` | src/components/Icon/Icon.tsx:87-103 | A miss gives no element and exactly one log entry, which names the icon. A hit gives no log entry and the found renderer. Both labels are the name, the role is `img` and the class is the context's. The color is the prop's, else the context's. Height, size and width are one value: the prop's pixel size, else the context size, else unset. |
| `Icon.IconBody` | src/components/Icon/Icon.tsx:76-104 | A brand name renders its brand asset, even if a pack defines the name too. Any other name renders the merged table's renderer. The result is "nothing" exactly when no table defines the name, and then one error naming the icon is logged. Membership means own keys (the corrected form of line 83; see Findings). |
| `Icon.ApplyDefaultProps` | src/components/Icon/Icon.tsx:106-108 | A missing size becomes 24, one of the allowed sizes on line 67. A present size, the name and the color are unchanged. |
| `Icon.Render` | src/components/Icon/Icon.tsx:92-108 | After the default-prop step the context size is never used: the size is always the prop's, or 24, on height, size and width alike. Color still falls back to the context. With neither a prop nor a context color, it stays unset. A hit logs nothing and carries the looked-up renderer, the name as both labels, role `img` and the context's class. A miss logs one entry naming the icon. Membership means own keys (the corrected form of line 83; see Findings). |
| `Icon.RenderAsWritten` | src/components/Icon/Icon.tsx:76-108 | `<Icon/>` as written, after the default-prop step. The size on height, size and width is the prop's or 24, never the context's. Color is the prop's, else the context's, else unset. It equals `Render` for every name that is not an `Object.prototype` member. Every prototype member that is not a brand name renders the inherited property and logs nothing. |
| `Icon.CustomNameWinsOverPacks` | src/components/Icon/Icon.tsx:83-85 | When a brand name is also defined by some pack, rendering still uses the brand SVG asset. |
| `Icon.IconBodyAsWritten` | src/components/Icon/Icon.tsx:83-90 | The component with the as-written lookup. It equals `IconBody` for every name that is not an `Object.prototype` member. Every prototype member that is not a brand name renders the inherited property and logs nothing. |
| `Icon.PrototypeNameSkipsMissPath` | src/components/Icon/Icon.tsx:83-90 | As written, the name `toString`, defined by no table, renders the inherited builtin and logs nothing. The corrected component logs the miss and renders nothing. |

## Left out

- `src/components/ThemeProvider/index.tsx`: only React context, `useMemo` and a vendor theme adapter. Its one computation, `themeToVariables`, is in a file that is not part of this model.
- JSX rendering, `useContext` propagation and the `defaultProps` machinery are framework behaviour. The context is a parameter and the default-prop step is `ApplyDefaultProps`.
- The contents of the Feather, Phosphor and Ant packs and the SVG assets are foreign. They are abstract tables and opaque handles.
- The `log` utility is not part of this model. Only the message it receives is kept, as the result's `log`.
- The truthiness test `!IconComponent` is modelled as "no entry". Every pack export and asset is a component, so none is falsy.
- The static type of `name` (a key of one of the tables) is not a precondition. Names arrive at run time, and the miss path handles unknown ones.

## Findings

| source | as written | input that shows it | evidently intended | confidence | as-written member | corrected member |
|---|---|---|---|---|---|---|
| src/components/Icon/Icon.tsx:83-85 | `name in customIcons` also sees properties that every object literal inherits from `Object.prototype`. Such a name takes the brand branch and gets a truthy builtin function, so the miss check never runs. | name `toString` (also `constructor`, `valueOf`, ...) defined by no pack | Own-key membership: an unknown name logs "icon name toString not supported" and renders nothing | medium, not executed | `Icon.PrototypeNameSkipsMissPath` | `Icon.IconBody` |
