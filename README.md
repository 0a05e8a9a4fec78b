# Payment-method ledger of the e-wallet screen, in Dafny

This project models the payment-method screen of a React Native e-wallet
(`AccountManager`). The screen keeps a list of payment methods, each an id, a
name and a balance (`funds`). It mirrors that list into the device key/value
store under the key `"paymentMethods"`, and it appends top-ups to a
transaction log stored under `"transactions"`. Every change to the list
computes a whole new list:

- "Add" appends a record.
- "Update" renames the records with the current id.
- "Delete" filters an id out.
- "Add Funds" raises the balance and logs a transaction.

The new list is then written to memory and to storage. Each of these actions
runs behind a one-slot confirmation dialog: `confirmAndExecute` stores the
action, "Yes" runs it, and "Cancel" only hides the dialog.

The model has three layers:

- `ledger.dfy`, module `Ledger`: the records, plus the list transforms as
  recursive functions, each with a lemma that says record by record what it
  computes. These are
  append, the two `map`s, the `filter`, the `find`, the load-time rule
  `funds ?? 0`, and what a save writes.
- `screen_state.dfy`, module `ScreenState`: the component's state variables
  and the storage as one value (`State`), with one function per handler. It
  also has an `Event`/`Handle` view of everything the user can do, and the
  lemmas about it: what each handler does, the confirmation gate, an
  append-only log, balances that stay non-negative while no negative amount
  is added, memory and storage that stay in agreement, and the end-to-end
  "Visa" flow.
- `account_manager.dfy`, module `Screen`: the class `AccountManager`, whose
  fields are the component's state variables and the storage map. Each handler
  is a method that updates fields one at a time, as the source does. Each
  method is proved to reach exactly the state the matching `ScreenState`
  function gives (`Snapshot() == ScreenState.F(old(Snapshot()), …)`).
- `wrappers.dfy`: `Option`. It stands for `null`, `undefined` and a missing
  field.

Modelling choices:

- Ids, balances and amounts are integers (cents).
- `Date.now()` and `new Date().toLocaleString()` are the parameters `now` and
  `date`.
- `parseFloat` on non-empty text is a function `parseNumber: string -> int`
  fixed when the object is built. Empty text counts as 0, because the source
  writes `fundsToAdd || '0'`.
- AsyncStorage is a `map<string, Cell>`. A cell holds the records already
  decoded, so `JSON.stringify`/`JSON.parse` are the identity. The only
  difference is that a stored method may lack `funds`, because records written
  before that field existed have none.
- The component keeps no transaction list of its own. The log exists only in
  the `"transactions"` cell and is read through `ScreenState.Transactions`.
- The closures passed to `confirmAndExecute` are the datatype
  `ScreenState.Action`.
- The initial value of `confirmAction` is `None`. `useState(() => { })` treats
  its argument as a lazy initialiser, so the state starts `undefined`.

Behaviour of the code that a reader might not expect, and that the model
keeps:

- "Yes" does not clear the pending action. It stays stored until the next
  `confirmAndExecute` overwrites it.
- "Add" does not reject an empty name.
- Non-numeric text is not read as 0. Only empty text is; `parseFloat("abc")`
  is NaN.
- Negative text is accepted. `parseFloat("-5")` is -5, so "Add Funds" can
  lower a balance and push it below 0 (AddFundsSpec states the top-up for any
  amount). The non-negativity invariant, HandlePreservesSound, therefore
  holds only for events whose "Add Funds" amount is not negative.
- With nothing pending, "Yes" throws before it hides the dialog, so it changes
  nothing.
- "Add Funds" tests only the first record with the current id. When ids
  repeat and that record's name is empty, nothing is logged even if a later
  record with the same id has a name.

## Model

| member | source | states |
|---|---|---|
| Ledger.Appended | ewallet-app/components/AccountManager.tsx:61-64 | the new list is the old list plus exactly one record at the end, with the given id, the entered name and funds 0 |
| Ledger.RenamedSpec | ewallet-app/components/AccountManager.tsx:72-74 | renaming keeps every id and funds value in place; records with the current id get the new name, every other record is unchanged |
| Ledger.RenamedNoMatch | ewallet-app/components/AccountManager.tsx:72-74 | with no record under the current id (also a null id) renaming leaves the list as it was |
| Ledger.FundedSpec | ewallet-app/components/AccountManager.tsx:95-99 | adding funds keeps every id and name in place; records with the current id gain the amount, every other record is unchanged |
| Ledger.FundedNoMatch | ewallet-app/components/AccountManager.tsx:95-99 | with no record under the current id adding funds leaves the list as it was |
| Ledger.RemovedAbsent | ewallet-app/components/AccountManager.tsx:84 | deleting an id no record has leaves the list unchanged |
| Ledger.RemovedMultiplicity | ewallet-app/components/AccountManager.tsx:84 | each record with another id survives a delete exactly as many times as it occurred; records with the id vanish |
| Ledger.RemovedMembers | ewallet-app/components/AccountManager.tsx:84 | a record is in the result iff it was in the list and its id differs from the deleted one |
| Ledger.RemovedConcat | ewallet-app/components/AccountManager.tsx:84 | filtering distributes over concatenation, so the survivors keep their relative order |
| Ledger.FindMatch | ewallet-app/components/AccountManager.tsx:103-104 | None iff no record has the current id; otherwise a record of the list with that id |
| Ledger.FindMatchIsFirst | ewallet-app/components/AccountManager.tsx:103-104 | the record found is the one at the first index whose id matches |
| Ledger.NormalisedSpec | ewallet-app/components/AccountManager.tsx:38-41 | one record per stored record, same id and name; a present funds value is kept, a missing one becomes 0 |
| Ledger.StoredSpec | ewallet-app/components/AccountManager.tsx:47 | a save writes every record with its id, name and funds all present |
| Ledger.LoadAfterSave | ewallet-app/components/AccountManager.tsx:36-47 | loading what was saved gives back the saved list exactly |
| Ledger.SaveAfterLoad | ewallet-app/components/AccountManager.tsx:36-47 | saving what was loaded gives back the stored records when none lacked funds |
| Ledger.NormaliseIdempotent | ewallet-app/components/AccountManager.tsx:38-41 | normalising after a save of a normalised list changes nothing |
| Ledger.RemovedAppendedFresh | ewallet-app/components/AccountManager.tsx:60-87 | deleting a just-added record whose id no earlier record had restores the list before the add |
| Ledger.AppendedKeepsIdsDistinct | ewallet-app/components/AccountManager.tsx:63 | adding under a timestamp larger than every existing id keeps ids pairwise distinct |
| Ledger.RemovedKeepsIdsDistinct | ewallet-app/components/AccountManager.tsx:84 | deleting keeps ids pairwise distinct |
| Ledger.RenamedFundedKeepIdsDistinct | ewallet-app/components/AccountManager.tsx:72-99 | renaming and adding funds keep ids pairwise distinct |
| Ledger.FundedNonDecreasing | ewallet-app/components/AccountManager.tsx:95-99 | a non-negative amount never lowers a balance, so non-negative balances stay non-negative |
| ScreenState.LoadSpec | ewallet-app/components/AccountManager.tsx:35-44 | loading changes only the list; without the cell the list is left as it was; with it every record keeps id and name and funds becomes `funds ?? 0` |
| ScreenState.ReloadIsNoOp | ewallet-app/components/AccountManager.tsx:35-48 | when storage holds what memory holds, loading again changes nothing |
| ScreenState.SaveSpec | ewallet-app/components/AccountManager.tsx:46-48 | a save writes only the "paymentMethods" cell, leaves the log alone, keeps storage well-shaped, and loading the cell back gives the saved list |
| ScreenState.AddSpec | ewallet-app/components/AccountManager.tsx:60-69 | one record appended at the end with the entered name, the timestamp as id and funds 0; earlier entries unchanged; the saved cell equals the new list; log and every other cell untouched; name field cleared, dialog closed; every other field unchanged |
| ScreenState.UpdateSpec | ewallet-app/components/AccountManager.tsx:71-81 | length, order, ids and funds kept; only records with the current id renamed; no match or a null id leaves the list unchanged; saved cell equals the list; no other cell written; afterwards isUpdating false, current id null, input cleared, dialog closed; every other field unchanged |
| ScreenState.DeleteSpec | ewallet-app/components/AccountManager.tsx:83-87 | exactly the records with another id remain, each as often as before; absent id leaves the list unchanged; saved cell equals the list; log and all other fields untouched |
| ScreenState.AddFundsSpec | ewallet-app/components/AccountManager.tsx:94-113 | matching records gain the parsed amount (0 for empty text), every other field of every record unchanged; saved cell equals the list; current id null, input cleared, dialog closed |
| ScreenState.AddFundsLogging | ewallet-app/components/AccountManager.tsx:103-108 | a transaction is logged iff the first record with the current id in the list before the update has a non-empty name; it carries that old name and the amount added |
| ScreenState.AddFundsFrame | ewallet-app/components/AccountManager.tsx:94-113 | no storage cell but "paymentMethods" and "transactions" is written, and the name field, name dialog, confirmation dialog, update mode and pending action are unchanged |
| ScreenState.LogTransactionSpec | ewallet-app/components/AccountManager.tsx:115-127 | the log becomes the old log plus exactly one record at the end; an absent cell is an empty log; no other cell or field changes |
| ScreenState.ConfirmOverwrites | ewallet-app/components/AccountManager.tsx:50-53 | a second request replaces the pending action; the dialog is shown |
| ScreenState.ConfirmChangesNoLedger | ewallet-app/components/AccountManager.tsx:50-53 | requesting confirmation changes neither the list nor storage |
| ScreenState.CancelRunsNothing | ewallet-app/components/AccountManager.tsx:182 | request then "Cancel" leaves list, storage and every field except the pending action and the dialog flag as they were |
| ScreenState.YesRunsLatest | ewallet-app/components/AccountManager.tsx:55-58 | "Yes" runs the most recently requested action once and hides the dialog; the action stays stored |
| ScreenState.YesWithoutPendingIsInert | ewallet-app/components/AccountManager.tsx:29 | with no action ever stored, "Yes" changes nothing |
| ScreenState.GatedDelete | ewallet-app/components/AccountManager.tsx:169 | a delete request leaves the list alone; "Cancel" leaves list and storage alone; "Yes" filters the id out and leaves the log alone |
| ScreenState.CancelsKeepLedger | ewallet-app/components/AccountManager.tsx:182-237 | each Cancel button closes its own dialog and resets the fields it names (name, update mode, current id; amount, current id); all three leave list and storage unchanged |
| ScreenState.RunFacts | ewallet-app/components/AccountManager.tsx:56 | a stored action keeps storage well-shaped; only "Add Funds" can change the log and it logs as above; the four mutations leave storage equal to memory |
| ScreenState.RunKeepsNonNegative | ewallet-app/components/AccountManager.tsx:56 | no stored action makes a balance negative, except "Add Funds" with a negative amount |
| ScreenState.HandlePreservesSound | ewallet-app/components/AccountManager.tsx:31-237 | every event keeps both cells well-shaped, and keeps balances non-negative in memory and storage unless it is "Yes" on a pending Add Funds whose amount is negative |
| ScreenState.LogIsAppendOnly | ewallet-app/components/AccountManager.tsx:115-127 | every event keeps the old log as a prefix and adds at most one record, and only "Yes" on a pending "Add Funds" adds one |
| ScreenState.HandleKeepsMirrored | ewallet-app/components/AccountManager.tsx:31-237 | once storage holds what memory holds, every event keeps them in agreement |
| ScreenState.YesAddStep | ewallet-app/components/AccountManager.tsx:55-69 | "Yes" on a pending Add appends one record with the entered name, the timestamp and funds 0, and keeps the log |
| ScreenState.YesOpenStep | ewallet-app/components/AccountManager.tsx:55-58 | "Yes" on a pending dialog opener keeps list and storage and sets the current id |
| ScreenState.YesAddFundsStep | ewallet-app/components/AccountManager.tsx:55-113 | "Yes" on a pending Add Funds, in any list whose first record with the current id has a non-empty name: the list becomes the top-up by the amount and one entry with that name is logged |
| ScreenState.YesUpdateStep | ewallet-app/components/AccountManager.tsx:55-81 | "Yes" on a pending Update, in any list: the records with the current id are renamed to the entered name and the log is kept |
| ScreenState.YesDeleteStep | ewallet-app/components/AccountManager.tsx:55-87 | "Yes" on a pending Delete of the only record empties the list and keeps the log |
| ScreenState.VisaFlow | ewallet-app/components/AccountManager.tsx:55-113 | add "Visa", top up 5075, rename to "Visa Credit", delete: the list ends empty and the log holds one record with the old name "Visa" |
| Screen.AccountManager.constructor | ewallet-app/components/AccountManager.tsx:21-29 | all state variables at their initial values, storage as given |
| Screen.AccountManager.LoadPaymentMethods | ewallet-app/components/AccountManager.tsx:35-44 | new state is the load of the old one (see LoadSpec) |
| Screen.AccountManager.SavePaymentMethods | ewallet-app/components/AccountManager.tsx:46-48 | new state is the old one with the "paymentMethods" cell overwritten (see SaveSpec) |
| Screen.AccountManager.ConfirmAndExecute | ewallet-app/components/AccountManager.tsx:50-53 | pending action replaced, dialog shown, nothing else changes |
| Screen.AccountManager.ExecuteConfirmedAction | ewallet-app/components/AccountManager.tsx:55-58 | the pending action has run and the dialog is hidden; with none pending nothing changes |
| Screen.AccountManager.Run | ewallet-app/components/AccountManager.tsx:56 | the state after the stored action, as ScreenState.Run dispatches it |
| Screen.AccountManager.AddPaymentMethod | ewallet-app/components/AccountManager.tsx:60-69 | new state as AddSpec describes |
| Screen.AccountManager.UpdatePaymentMethod | ewallet-app/components/AccountManager.tsx:71-81 | new state as UpdateSpec describes |
| Screen.AccountManager.DeletePaymentMethod | ewallet-app/components/AccountManager.tsx:83-87 | new state as DeleteSpec describes |
| Screen.AccountManager.OpenAddFundsModal | ewallet-app/components/AccountManager.tsx:89-92 | current id set, funds dialog shown, nothing else changes |
| Screen.AccountManager.AddFundsToMethod | ewallet-app/components/AccountManager.tsx:94-113 | new state as AddFundsSpec and AddFundsLogging describe |
| Screen.AccountManager.LogTransaction | ewallet-app/components/AccountManager.tsx:115-127 | new state as LogTransactionSpec describes |
| Screen.AccountManager.OpenUpdateModal | ewallet-app/components/AccountManager.tsx:129-134 | name field holds the record's name, current id is its id, update mode and dialog on, nothing else changes |
| Screen.AccountManager.OpenAddModal | ewallet-app/components/AccountManager.tsx:142 | name dialog shown, nothing else changes |
| Screen.AccountManager.EnterMethodName | ewallet-app/components/AccountManager.tsx:195 | name field holds the typed text, nothing else changes |
| Screen.AccountManager.EnterFundsAmount | ewallet-app/components/AccountManager.tsx:225 | amount field holds the typed text, nothing else changes |
| Screen.AccountManager.CancelConfirm | ewallet-app/components/AccountManager.tsx:182 | dialog hidden, nothing else changes, the pending action is kept |
| Screen.AccountManager.CancelMethodModal | ewallet-app/components/AccountManager.tsx:206-211 | dialog closed, update mode off, name cleared, current id null, nothing else changes |
| Screen.AccountManager.CancelFundsModal | ewallet-app/components/AccountManager.tsx:233-237 | funds dialog closed, amount cleared, current id null, nothing else changes |
| Screen.CancelledDelete | ewallet-app/components/AccountManager.tsx:169-182 | on the object: a Delete request then Cancel leaves list, storage and every field but the stored action and the confirmation dialog as they were; the dialog is hidden |
| Screen.DeleteThroughGate | ewallet-app/components/AccountManager.tsx:169-182 | on the object: a cancelled Delete, then Delete and Yes, leaves the filtered list, the same log and the dialog hidden |

## Left out

- Rendering, styles, the list view and the dialog markup (AccountManager.tsx:136-297). They are UI only. The dialog visibility flags are modelled; what they show is not.
- AsyncStorage and JSON. Storage is a map of decoded cells. Parse failures and read or write errors are not modelled.
- HandlePreservesSound: non-negative balances are kept only by events whose "Add Funds" amount is not negative. The code accepts negative text, so no unconditional non-negativity is claimed.
- A cell whose records have the other key's shape is never written by this component (HandlePreservesSound keeps both cells well-shaped). The model reads such a cell as absent, where the code would fail or mis-read it.
- Floating point. Amounts are integers. `parseFloat` on non-empty text is an arbitrary function to integers, so NaN (non-numeric text) is not represented, and neither is how NaN would spread into a balance and into the log.
- Ids are not proved unique, because the code never checks them. AppendedKeepsIdsDistinct shows distinctness only under its condition on the timestamp.
- React semantics. Asynchronous `setState` batching, stale values captured by the stored closure, and lost updates between overlapping async handlers are not modelled. Each handler is one atomic step on the current state.
- The awaits inside `addFundsToMethod` and `logTransaction`. Their interleaving with other handlers is not modelled, and neither is the case where the list write succeeds and the log write fails.
- TransactionHistory.tsx, ProfilePage.tsx, LoginPage.tsx, ResetPassword.tsx, SignUp.tsx, ForgotPassword.tsx, TransactionScreen.tsx and App.tsx are not part of this model. They are a log viewer, remote authentication calls, input checks that only raise alerts, and navigation. The viewer's sample append (TransactionHistory.tsx:27-39) is not the same as `logTransaction`: it appends to the copy of the log read when the viewer mounted and writes that copy back, so entries logged since then are overwritten. `logTransaction` reads the cell again before it appends.
