# Investment ledger: a verified Dafny model

This project models the core of a small browser app that records personal
investments (`Investimento`: name, amount applied, expected return and
registration timestamp) and manages them with `SistemaInvestimentos`. The
ledger keeps an ordered in-memory list and addresses entries by position. After
each change it writes the whole list back to one `localStorage` slot. It also
reports two totals: the amount applied and the expected return.

The repository holds two variants of the ledger, and both are modelled:

- `Prova-Hiran/script.js`, the defensive variant, is module
  `DefensiveLedger`. It uses the slot `sistema_investimentos_data`.
  `remover` and `atualizar` check bounds, and an out-of-range call touches
  neither the list nor storage. Loading rebuilds every record and keeps each
  stored timestamp. `limparTudo` deletes the slot.
- `script.js`, the unchecked variant, is module `UncheckedLedger`. It uses
  the slot `investimentos`. `remover` calls `splice(index, 1)` with no guard
  and always saves. Loading takes the stored list as it is, and every new
  record is stamped with the clock.

Shared parts:

- `Records` holds the `Investment` record and the totals. The source computes
  a total with a left `reduce` from 0 (`Reduce`). The model proves that this
  equals an independent reference sum (`Sum`), and proves how the sum changes
  when an entry is appended, removed or replaced.
- `ListOps` holds the bounds-checked removal. It also holds
  `Array.prototype.splice` as section 23.1.3.31 of ECMA-262 (2023) defines
  it: a negative start counts back from the end and is clamped at 0, a start
  past the end deletes nothing, and the delete count is clamped.
- `Text` holds `String.prototype.trim`, using ECMAScript's white-space and
  line-terminator code points.
- `BrowserStorage` holds `localStorage` as a class whose one field maps each
  key to a stored list. A key outside the map is a slot that is not set. Both
  ledger classes hold a reference to one such object. Each mutating method
  states its entire new state: the new list, and the storage map with exactly
  one slot overwritten or deleted.

The clock (`new Date().toISOString()`) is passed in as the parameter `now`. A
number typed into the form is `Option<real>`, where `None` stands for NaN.

## Model

| member | source | states |
|---|---|---|
| `Records.Reduce` | Prova-Hiran/script.js:37-43 | the source's left `reduce` from an accumulator equals the accumulator plus the reference sum of the column |
| `Records.SumConcat` | Prova-Hiran/script.js:37-43 | the total of a concatenation is the sum of the two totals |
| `Records.SumAppend` | Prova-Hiran/script.js:18-21 | appending an entry raises a total by exactly that entry's amount |
| `Records.SumWithout` | Prova-Hiran/script.js:23-28 | deleting position i lowers a total by exactly that entry's amount |
| `Records.SumReplace` | Prova-Hiran/script.js:30-35 | replacing position i changes a total by the new amount minus the old one |
| `ListOps.RemoveAt` | Prova-Hiran/script.js:25 | deleting position i: length drops by one, entries before i stay, later entries shift left by one, and the multiset loses exactly the removed entry |
| `ListOps.RemoveLastUndoesAppend` | Prova-Hiran/script.js:18-28 | appending x and then deleting the last position gives the original list back |
| `ListOps.ActualStart` | script.js:57 | splice's start position: a start in range is kept, a start past the end becomes the length, a negative one counts back from the end, and one below minus the length becomes 0 |
| `ListOps.ActualDeleteCount` | script.js:57 | splice's delete count is the requested count clamped between 0 and the number of elements after the start |
| `ListOps.Splice` | script.js:57 | after splice, the prefix before the actual start stays, the length drops by the actual delete count, and later elements shift left by that count |
| `ListOps.SpliceOne` | script.js:56-59 | `splice(index, 1)`: an index in range removes that position; an index at or past the end removes nothing; -len <= index < 0 removes position len + index; an index below -len removes position 0; an empty list stays empty |
| `ListOps.SpliceMinusOneUndoesAppend` | script.js:51-59 | appending x and then calling `splice(-1, 1)` gives the original list back |
| `Text.TrimStart` | Prova-Hiran/script.js:86 | the result is a suffix of the input, everything cut off is white space, and it does not start with white space |
| `Text.TrimEnd` | Prova-Hiran/script.js:86 | the result is a prefix of the input, everything cut off is white space, and it does not end with white space |
| `Text.Trim` | Prova-Hiran/script.js:86 | `trim()` yields a contiguous slice, everything around the slice is white space, and the slice neither starts nor ends with white space |
| `Text.TrimEmptyIffBlank` | Prova-Hiran/script.js:86-90 | a name trims to the empty string if and only if every character in it is white space |
| `BrowserStorage.LocalStorage.GetItem` | Prova-Hiran/script.js:50 | `getItem` returns None exactly when the slot is absent, and otherwise returns the stored list |
| `BrowserStorage.LocalStorage.SetItem` | Prova-Hiran/script.js:46 | `setItem` overwrites one slot and leaves every other slot unchanged |
| `BrowserStorage.LocalStorage.RemoveItem` | Prova-Hiran/script.js:58 | `removeItem` deletes one slot and leaves every other slot unchanged |
| `DefensiveLedger.NewInvestment` | Prova-Hiran/script.js:3-10 | a supplied non-empty timestamp is kept; a missing or empty one becomes the clock reading; name and amounts are stored as given; a non-empty clock always gives a non-empty timestamp |
| `DefensiveLedger.Rebuild` | Prova-Hiran/script.js:53 | a rebuilt entry keeps its name and amounts; an entry with a non-empty timestamp comes back unchanged, and one with an empty timestamp gets the clock reading |
| `DefensiveLedger.Hydrate` | Prova-Hiran/script.js:53 | rebuilding a stored list keeps its length |
| `DefensiveLedger.HydrateAt` | Prova-Hiran/script.js:53 | each rebuilt entry keeps its name and amounts, keeps a non-empty stored timestamp, and gets the clock reading when its timestamp is empty |
| `DefensiveLedger.HydrateKeepsStamped` | Prova-Hiran/script.js:8 | rebuilding a list whose entries all carry timestamps gives back the same list |
| `DefensiveLedger.HydrateStamps` | Prova-Hiran/script.js:8 | with a non-empty clock reading, every rebuilt entry carries a timestamp |
| `DefensiveLedger.HydrateIdempotent` | Prova-Hiran/script.js:49-54 | loading again a list that was loaded with a non-empty clock reading changes nothing, whatever the second clock reading is |
| `DefensiveLedger.HydrateFields` | Prova-Hiran/script.js:53 | every rebuilt entry keeps its stored name and both amounts |
| `DefensiveLedger.Load` | Prova-Hiran/script.js:49-54 | `_carregar`: an absent slot loads as the empty list; a stored list loads with the same length, and each entry keeps its name and amounts |
| `DefensiveLedger.LoadAfterSave` | Prova-Hiran/script.js:45-54 | saving a list of timestamped records with finite amounts and loading it back gives the same records in the same order |
| `DefensiveLedger.InvestmentSystem.constructor` | Prova-Hiran/script.js:13-16 | the list is what `_carregar` yields for the slot, and storage is not written; an absent slot, or a slot holding timestamped records, leaves the ledger mirrored in storage; with a non-empty clock reading every loaded entry is timestamped |
| `DefensiveLedger.NewPageLedger` | Prova-Hiran/script.js:64 | the page's ledger is a new object over the default slot `sistema_investimentos_data`, loaded from it, and timestamped when the clock reading is non-empty |
| `DefensiveLedger.InvestmentSystem.TotalInvested` | Prova-Hiran/script.js:37-39 | equals the sum of the amounts applied, and is 0 for an empty ledger |
| `DefensiveLedger.InvestmentSystem.TotalExpectedReturn` | Prova-Hiran/script.js:41-43 | equals the sum of the expected returns, and is 0 for an empty ledger |
| `DefensiveLedger.InvestmentSystem.Save` | Prova-Hiran/script.js:45-47 | the ledger's slot now holds the list, and no other slot changes |
| `DefensiveLedger.InvestmentSystem.Add` | Prova-Hiran/script.js:18-21 | the list is the old list plus `inv` at the end; the slot holds the new list; both totals grow by `inv`'s amounts; a timestamped list stays timestamped when `inv` is |
| `DefensiveLedger.InvestmentSystem.Remove` | Prova-Hiran/script.js:23-28 | an index in range deletes exactly that position, rewrites the slot and lowers both totals by the removed amounts; any other index changes neither the list nor storage; a timestamped list stays timestamped |
| `DefensiveLedger.InvestmentSystem.Update` | Prova-Hiran/script.js:30-35 | an index in range replaces exactly that position, rewrites the slot and shifts both totals by the difference; any other index changes neither the list nor storage; a timestamped list stays timestamped when the new entry is |
| `DefensiveLedger.InvestmentSystem.ClearAll` | Prova-Hiran/script.js:56-59 | the list becomes empty, the slot is deleted rather than set to an empty list, no other slot changes, and a later load yields the empty list |
| `DefensiveLedger.InvestmentSystem.RestartReproduces` | Prova-Hiran/script.js:45-54 | when the slot mirrors a list of timestamped records with finite amounts, a new ledger over the same storage loads exactly that list |
| `DefensiveLedger.ValidateSubmission` | Prova-Hiran/script.js:86-95 | a record is produced exactly when the name has a non-white-space character and both amounts parsed; any number, zero or negative included, is accepted; the record holds the trimmed name, the amounts and the clock reading |
| `DefensiveLedger.HandleAddSubmit` | Prova-Hiran/script.js:83-98 | a valid submission is appended and saved; an invalid one changes neither the list nor storage; with a non-empty clock reading a timestamped list stays timestamped |
| `DefensiveLedger.SeedExamples` | Prova-Hiran/script.js:107-111 | three examples, with totals 35000 applied and 42900 expected, all timestamped when the clock reading is non-empty |
| `DefensiveLedger.Seed` | Prova-Hiran/script.js:106-114 | the examples are appended in order, the ledger's slot holds the new list and no other slot changes, the totals rise by 35000 and 42900, and a timestamped list stays timestamped |
| `DefensiveLedger.AddThenRemoveLast` | Prova-Hiran/script.js:18-28 | adding and then removing the last index restores the list and both totals; the ledger's slot ends up holding the original list and no other slot changes |
| `UncheckedLedger.NewInvestment` | script.js:36-43 | name and amounts are stored as given, and the timestamp is always the clock reading |
| `UncheckedLedger.Load` | script.js:48 | an absent slot gives the empty list; a stored list is taken unchanged |
| `UncheckedLedger.InvestmentSystem.constructor` | script.js:46-49 | the key is `investimentos`; the list is the stored one, or empty when the slot is absent; the ledger is mirrored in storage |
| `UncheckedLedger.InvestmentSystem.TotalInvested` | script.js:65-67 | equals the sum of the amounts applied, and is 0 for an empty ledger |
| `UncheckedLedger.InvestmentSystem.TotalReturn` | script.js:69-71 | equals the sum of the expected returns, and is 0 for an empty ledger |
| `UncheckedLedger.InvestmentSystem.Save` | script.js:61-63 | the slot now holds the list, and no other slot changes |
| `UncheckedLedger.InvestmentSystem.Add` | script.js:51-54 | the list is the old list plus `inv` at the end; the slot holds the new list; both totals grow by `inv`'s amounts |
| `UncheckedLedger.InvestmentSystem.Remove` | script.js:56-59 | the list is `splice(index, 1)` of the old list, with the case analysis of `SpliceOne`; the slot is rewritten even when nothing was removed; an index in range lowers both totals by the removed amounts, and an index at or past the end leaves the list and both totals unchanged |
| `UncheckedLedger.InvestmentSystem.RestartReproduces` | script.js:45-63 | when the slot mirrors a list with finite amounts, a new ledger over the same storage loads exactly that list |
| `UncheckedLedger.AcceptedAsWritten` | script.js:100 | the guard as written lets a submission through exactly when the name has a non-white-space character and each amount is NaN or above zero |
| `UncheckedLedger.NaNAmountPassesGuard` | script.js:97-103 | as written, the guard accepts a named submission whose amount is NaN |
| `UncheckedLedger.ValidateSubmission` | script.js:96-105 | a record is produced exactly when the name has a non-white-space character and both amounts are numbers above zero; on numeric input this agrees with the guard as written |
| `UncheckedLedger.HandleSubmit` | script.js:93-108 | a valid submission is appended and saved; an invalid one changes neither the list nor storage |
| `UncheckedLedger.Seed` | script.js:112-116 | the two examples are appended in order, the `investimentos` slot holds the new list and no other slot changes, and the totals rise by 15000 and 17600 |
| `UncheckedLedger.AddThenRemoveLast` | script.js:51-59 | adding and then `remover(-1)` restores the list and both totals; the slot ends up holding the original list and no other slot changes |

## Left out

- The user interface is not modelled: rendering (`renderizar`), DOM elements, event listeners, `form.reset`, `alert` and `confirm`. A confirmed dialog is taken as the call itself.
- The login and logout gate, the `usuario_logado` slot and `location.reload` are not modelled. They are page plumbing. So is the unchecked variant's "apagar tudo" button, which clears every slot and reloads the page.
- Currency formatting with `toLocaleString` is not modelled. It is a library call.
- The JSON text inside a slot is not modelled. A slot holds the list of records itself. A payload that is not JSON, or is JSON of another shape, cannot arise here. In the source the defensive variant throws on text that is neither empty nor JSON, on JSON that is not an array and on an array holding `null`; it loads an array of other values as records with missing fields. The unchecked variant throws only on text that is not JSON; its `|| []` turns `null`, `0`, `false` and `""` into the empty list, and it keeps any other JSON value as its list.
- `Number()` and `parseFloat` on form text are not modelled. A parsed amount is `Option<real>`, with `None` for NaN. Infinities, `Number("")` being 0, and `parseFloat`'s acceptance of trailing garbage fall under that abstraction.
- Amounts are mathematical reals. IEEE-754 rounding in the totals is not modelled.
- `DefensiveLedger.LoadAfterSave`, `DefensiveLedger.InvestmentSystem.RestartReproduces`, `UncheckedLedger.InvestmentSystem.RestartReproduces`: the round trip is proved for finite amounts only. In the source `JSON.stringify` writes an infinite amount as `null`, which the defensive variant reloads as 0 through `Number(null)` and the unchecked variant keeps as `null`. The defensive guard lets such an amount in, since `parseFloat("1e400")` is not NaN.
- The clock is a parameter. Within one load, all rebuilt records share one clock reading, whereas the source reads the clock once per record. This only matters for records stored without a timestamp. Likewise `DefensiveLedger.SeedExamples`, `DefensiveLedger.Seed` and `UncheckedLedger.Seed` stamp every example with one reading, where the source reads the clock once per `new Investimento`.
- `ListOps.Splice`, `DefensiveLedger.InvestmentSystem.Remove`, `DefensiveLedger.InvestmentSystem.Update`: the index is an integer. Fractional, NaN or infinite indices are not modelled, since the page only passes list positions. In the source `remover(0.5)` passes the bounds guard and splice truncates the index to 0, and `atualizar(0.5, r)` sets a property that is not an array element and then saves. The array of removed elements that splice returns is not modelled either, because `remover` discards it.
- Records are values. A caller that keeps a reference to an added `Investimento` and mutates it later would change the ledger in the source. The model has no such aliasing.
- Storage write failures (quota) are not modelled. The source does not handle them.
- `UncheckedLedger.HandleSubmit`: uses the intended guard `ValidateSubmission`, not the guard as written. A record's amounts are reals and cannot hold NaN, so the model rejects a submission whose amount did not parse, where the source appends a record with a NaN amount and saves it. `AcceptedAsWritten` models the guard as written (see Findings).
- `DefensiveLedger.InvestmentSystem.constructor`: the list equals the stored one only when every stored record carries a timestamp. Otherwise the rebuilt records differ from the slot until the next save.

## Findings

| source | as written | input that shows it | evidently intended | confidence | as-written member | corrected member |
|---|---|---|---|---|---|---|
| script.js:97-103 | `if (!nome \|\| montante <= 0 \|\| retorno <= 0)` rejects bad values, but every comparison with NaN is false, so an amount that is not a number passes | name "Fundo Alpha", amount field "abc" (`Number` gives NaN), return 12000: the guard lets it through and a NaN amount enters the ledger and its totals | reject anything that is not a number above zero, as the "Valores inválidos!" alert says (the other variant tests `isNaN` explicitly) | medium, not executed; if the page's input fields are of type number, the browser turns non-numeric text into "", which `Number` maps to 0, and the guard rejects that | `UncheckedLedger.NaNAmountPassesGuard` | `UncheckedLedger.ValidateSubmission` |
