/**
 * The payment-method screen as a state machine on values: the component's
 * state variables together with the device's key/value storage, one
 * function per event handler, and the properties those handlers keep.
 * The class in module Screen is proved to follow these functions.
 */
module ScreenState {
  import opened Wrappers
  import opened Ledger

  const MethodsKey: string := "paymentMethods"
  const TransactionsKey: string := "transactions"

  /** The decoded content of one storage cell. */
  datatype Cell =
    | MethodsCell(methods: seq<StoredMethod>)
    | TransactionsCell(transactions: seq<Transaction>)

  /** The closures handed to `confirmAndExecute`, as data. */
  datatype Action =
    | OpenAddFunds(id: int)          // the "+" button of a row
    | OpenUpdate(item: PaymentMethod) // the "Update" button of a row
    | DeleteMethod(id: int)          // the "Delete" button of a row
    | AddMethod                      // "Add" in the name dialog
    | UpdateMethod                   // "Update" in the name dialog
    | AddFunds                       // "Add Funds" in the funds dialog

  /** The component's state variables and the storage it reads and writes. */
  datatype State = State(
    paymentMethods: seq<PaymentMethod>,
    storage: map<string, Cell>,
    newMethod: string,
    modalVisible: bool,
    fundModalVisible: bool,
    confirmModalVisible: bool,
    isUpdating: bool,
    currentMethodId: Option<int>,
    fundsToAdd: string,
    confirmAction: Option<Action>)

  /** Both cells, when present, hold the records their keys stand for. */
  predicate WellShaped(storage: map<string, Cell>) {
    && (MethodsKey in storage ==> storage[MethodsKey].MethodsCell?)
    && (TransactionsKey in storage ==> storage[TransactionsKey].TransactionsCell?)
  }

  /** The "paymentMethods" cell, if it is there. */
  function SavedMethods(storage: map<string, Cell>): Option<seq<StoredMethod>> {
    if MethodsKey in storage && storage[MethodsKey].MethodsCell? then Some(storage[MethodsKey].methods) else None
  }

  /** The transaction log; an absent cell is an empty log. */
  function Transactions(storage: map<string, Cell>): seq<Transaction> {
    if TransactionsKey in storage && storage[TransactionsKey].TransactionsCell? then storage[TransactionsKey].transactions else []
  }

  lemma KeysDistinct()
    ensures MethodsKey != TransactionsKey
  {
    assert MethodsKey[0] != TransactionsKey[0];
  }

  /** Writing the log cell leaves the methods cell as it was. */
  lemma LogCellKeepsMethods(storage: map<string, Cell>, c: Cell)
    ensures SavedMethods(storage[TransactionsKey := c]) == SavedMethods(storage)
  {
    KeysDistinct();
  }

  /** Writing the methods cell leaves the log as it was. */
  lemma MethodsCellKeepsLog(storage: map<string, Cell>, c: Cell)
    ensures Transactions(storage[MethodsKey := c]) == Transactions(storage)
  {
    KeysDistinct();
  }

  /** Writing a key of `keys` leaves the cells outside `keys` as they were. */
  lemma WriteInsideKeys(storage: map<string, Cell>, k: string, c: Cell, keys: set<string>)
    requires k in keys
    ensures storage[k := c] - keys == storage - keys
  {
  }

  /** The stored list is the in-memory list, field for field. */
  predicate Mirrored(s: State) {
    SavedMethods(s.storage) == Some(Stored(s.paymentMethods))
  }

  /** `parseFloat(fundsToAdd || '0')`: empty text is zero, other text goes to the number parser. */
  function AmountOf(text: string, parseNumber: string -> int): int {
    if text == "" then 0 else parseNumber(text)
  }

  /** The state when the screen first renders, before the mount effect has loaded anything. */
  function Initial(storage: map<string, Cell>): State {
    State([], storage, "", false, false, false, false, None, "", None)
  }

  function LoadPaymentMethods(s: State): State {
    match SavedMethods(s.storage)
    case Some(stored) => s.(paymentMethods := Normalised(stored))
    case None => s
  }

  function SavePaymentMethods(s: State, methods: seq<PaymentMethod>): State {
    s.(storage := s.storage[MethodsKey := MethodsCell(Stored(methods))])
  }

  function ConfirmAndExecute(s: State, action: Action): State {
    s.(confirmAction := Some(action), confirmModalVisible := true)
  }

  /**
   * "Yes" in the confirmation dialog. With nothing stored yet the call of the
   * stored value throws before the dialog is hidden, so nothing changes.
   */
  function ExecuteConfirmedAction(s: State, now: int, date: string, parseNumber: string -> int): State {
    match s.confirmAction
    case None => s
    case Some(a) => Run(s, a, now, date, parseNumber).(confirmModalVisible := false)
  }

  /** Calling a stored closure. */
  function Run(s: State, a: Action, now: int, date: string, parseNumber: string -> int): State {
    match a
    case OpenAddFunds(id) => OpenAddFundsModal(s, id)
    case OpenUpdate(item) => OpenUpdateModal(s, item)
    case DeleteMethod(id) => DeletePaymentMethod(s, id)
    case AddMethod => AddPaymentMethod(s, now)
    case UpdateMethod => UpdatePaymentMethod(s)
    case AddFunds => AddFundsToMethod(s, now, date, parseNumber)
  }

  function AddPaymentMethod(s: State, now: int): State {
    var updated := Appended(s.paymentMethods, now, s.newMethod);
    SavePaymentMethods(s.(paymentMethods := updated), updated).(newMethod := "", modalVisible := false)
  }

  function UpdatePaymentMethod(s: State): State {
    var updated := Renamed(s.paymentMethods, s.currentMethodId, s.newMethod);
    SavePaymentMethods(s.(paymentMethods := updated), updated)
      .(newMethod := "", modalVisible := false, isUpdating := false, currentMethodId := None)
  }

  function DeletePaymentMethod(s: State, id: int): State {
    var updated := Removed(s.paymentMethods, id);
    SavePaymentMethods(s.(paymentMethods := updated), updated)
  }

  function OpenAddFundsModal(s: State, id: int): State {
    s.(currentMethodId := Some(id), fundModalVisible := true)
  }

  function AddFundsToMethod(s: State, now: int, date: string, parseNumber: string -> int): State {
    var amount := AmountOf(s.fundsToAdd, parseNumber);
    var updated := Funded(s.paymentMethods, s.currentMethodId, amount);
    var saved := SavePaymentMethods(s.(paymentMethods := updated), updated);
    var found := FindMatch(s.paymentMethods, s.currentMethodId);
    var logged := if found.Some? && found.value.name != "" then LogTransaction(saved, found.value.name, amount, now, date) else saved;
    logged.(fundsToAdd := "", fundModalVisible := false, currentMethodId := None)
  }

  function LogTransaction(s: State, methodName: string, amount: int, now: int, date: string): State {
    var transactions := Transactions(s.storage) + [Transaction(now, methodName, amount, date)];
    s.(storage := s.storage[TransactionsKey := TransactionsCell(transactions)])
  }

  function OpenUpdateModal(s: State, item: PaymentMethod): State {
    s.(newMethod := item.name, currentMethodId := Some(item.id), isUpdating := true, modalVisible := true)
  }

  /** "+ Add Payment Method". */
  function OpenAddModal(s: State): State {
    s.(modalVisible := true)
  }

  /** Typing in the name field. */
  function EnterMethodName(s: State, text: string): State {
    s.(newMethod := text)
  }

  /** Typing in the amount field. */
  function EnterFundsAmount(s: State, text: string): State {
    s.(fundsToAdd := text)
  }

  /** "Cancel" in the confirmation dialog: hides it and nothing else. */
  function CancelConfirm(s: State): State {
    s.(confirmModalVisible := false)
  }

  /** "Cancel" in the name dialog. */
  function CancelMethodModal(s: State): State {
    s.(modalVisible := false, isUpdating := false, newMethod := "", currentMethodId := None)
  }

  /** "Cancel" in the funds dialog. */
  function CancelFundsModal(s: State): State {
    s.(fundModalVisible := false, fundsToAdd := "", currentMethodId := None)
  }

  /** Everything the user or the runtime can do to the screen. */
  datatype Event =
    | Mount
    | PressAddMethod
    | TypeMethodName(text: string)
    | TypeFundsAmount(text: string)
    | Confirm(action: Action)
    | PressYes(now: int, date: string)
    | PressCancelConfirm
    | PressCancelMethod
    | PressCancelFunds

  function Handle(s: State, e: Event, parseNumber: string -> int): State {
    match e
    case Mount => LoadPaymentMethods(s)
    case PressAddMethod => OpenAddModal(s)
    case TypeMethodName(text) => EnterMethodName(s, text)
    case TypeFundsAmount(text) => EnterFundsAmount(s, text)
    case Confirm(a) => ConfirmAndExecute(s, a)
    case PressYes(now, date) => ExecuteConfirmedAction(s, now, date, parseNumber)
    case PressCancelConfirm => CancelConfirm(s)
    case PressCancelMethod => CancelMethodModal(s)
    case PressCancelFunds => CancelFundsModal(s)
  }

  // ---------------------------------------------------------------------
  // Load and save

  /**
   * Loading keeps every stored record's id and name, reads a missing `funds`
   * as 0 and keeps a present one; with no cell the list is left as it was.
   */
  lemma LoadSpec(s: State)
    ensures var r := LoadPaymentMethods(s);
      && r.(paymentMethods := s.paymentMethods) == s
      && (SavedMethods(s.storage).None? ==> r.paymentMethods == s.paymentMethods)
      && (SavedMethods(s.storage).Some? ==>
            var stored := SavedMethods(s.storage).value;
            && |r.paymentMethods| == |stored|
            && (forall i :: 0 <= i < |stored| ==>
                  && r.paymentMethods[i].id == stored[i].id
                  && r.paymentMethods[i].name == stored[i].name
                  && r.paymentMethods[i].funds == stored[i].funds.GetOr(0)))
  {
    if SavedMethods(s.storage).Some? {
      NormalisedSpec(SavedMethods(s.storage).value);
    }
  }

  /** Once memory and storage agree, loading again changes nothing. */
  lemma ReloadIsNoOp(s: State)
    requires Mirrored(s)
    ensures LoadPaymentMethods(s) == s
  {
    LoadAfterSave(s.paymentMethods);
  }

  /** Saving writes only the "paymentMethods" cell, and loading it back gives the saved list. */
  lemma SaveSpec(s: State, methods: seq<PaymentMethod>)
    ensures var r := SavePaymentMethods(s, methods);
      && r.storage - {MethodsKey} == s.storage - {MethodsKey}
      && SavedMethods(r.storage) == Some(Stored(methods))
      && Transactions(r.storage) == Transactions(s.storage)
      && (WellShaped(s.storage) ==> WellShaped(r.storage))
      && LoadPaymentMethods(r).paymentMethods == methods
  {
    LoadAfterSave(methods);
    MethodsCellKeepsLog(s.storage, MethodsCell(Stored(methods)));
    KeysDistinct();
  }

  // ---------------------------------------------------------------------
  // The four ledger mutations

  /**
   * "Add" appends one record with the entered name, the given id and no
   * funds, leaves the earlier records alone, writes the new list to
   * storage, clears the name field and closes the dialog.
   */
  lemma AddSpec(s: State, now: int)
    ensures var r := AddPaymentMethod(s, now);
      && |r.paymentMethods| == |s.paymentMethods| + 1
      && r.paymentMethods[..|s.paymentMethods|] == s.paymentMethods
      && r.paymentMethods[|s.paymentMethods|] == PaymentMethod(now, s.newMethod, 0)
      && Mirrored(r)
      && Transactions(r.storage) == Transactions(s.storage)
      && r.newMethod == "" && !r.modalVisible
      && r.storage - {MethodsKey} == s.storage - {MethodsKey}
      && r.(paymentMethods := s.paymentMethods, storage := s.storage, newMethod := s.newMethod, modalVisible := s.modalVisible) == s
  {
  }

  /**
   * "Update" keeps length, order, ids and funds, renames exactly the records
   * whose id is the current one, and leaves the list as it was when none is
   * (in particular when there is no current id); then it resets the dialog.
   */
  lemma UpdateSpec(s: State)
    ensures var r := UpdatePaymentMethod(s);
      && |r.paymentMethods| == |s.paymentMethods|
      && (forall i :: 0 <= i < |s.paymentMethods| ==>
            && r.paymentMethods[i].id == s.paymentMethods[i].id
            && r.paymentMethods[i].funds == s.paymentMethods[i].funds
            && r.paymentMethods[i].name == if Matches(s.paymentMethods[i], s.currentMethodId) then s.newMethod else s.paymentMethods[i].name)
      && (NoneMatch(s.paymentMethods, s.currentMethodId) ==> r.paymentMethods == s.paymentMethods)
      && (s.currentMethodId.None? ==> r.paymentMethods == s.paymentMethods)
      && Mirrored(r)
      && Transactions(r.storage) == Transactions(s.storage)
      && !r.isUpdating && r.currentMethodId.None? && r.newMethod == "" && !r.modalVisible
      && r.storage - {MethodsKey} == s.storage - {MethodsKey}
      && r.(paymentMethods := s.paymentMethods, storage := s.storage, newMethod := s.newMethod,
            modalVisible := s.modalVisible, isUpdating := s.isUpdating, currentMethodId := s.currentMethodId) == s
  {
    RenamedSpec(s.paymentMethods, s.currentMethodId, s.newMethod);
    if NoneMatch(s.paymentMethods, s.currentMethodId) {
      RenamedNoMatch(s.paymentMethods, s.currentMethodId, s.newMethod);
    }
  }

  /**
   * "Delete" keeps exactly the records with another id, in their order,
   * changes nothing when the id is absent, and never touches the log.
   */
  lemma DeleteSpec(s: State, id: int, m: PaymentMethod)
    ensures var r := DeletePaymentMethod(s, id);
      && (m in r.paymentMethods <==> m in s.paymentMethods && m.id != id)
      && multiset(r.paymentMethods)[m] == (if m.id == id then 0 else multiset(s.paymentMethods)[m])
      && ((forall i :: 0 <= i < |s.paymentMethods| ==> s.paymentMethods[i].id != id) ==> r.paymentMethods == s.paymentMethods)
      && Mirrored(r)
      && Transactions(r.storage) == Transactions(s.storage)
      && r.(paymentMethods := s.paymentMethods, storage := s.storage) == s
  {
    var ms := Removed(s.paymentMethods, id);
    SaveSpec(s.(paymentMethods := ms), ms);
    assert DeletePaymentMethod(s, id) == SavePaymentMethods(s.(paymentMethods := ms), ms);
    RemovedMembers(s.paymentMethods, id, m);
    RemovedMultiplicity(s.paymentMethods, id, m);
    if forall i :: 0 <= i < |s.paymentMethods| ==> s.paymentMethods[i].id != id {
      RemovedAbsent(s.paymentMethods, id);
    }
  }

  /**
   * "Add Funds" writes no storage cell but the two it names and changes no
   * field but the list, storage and the three it resets.
   */
  lemma AddFundsFrame(s: State, now: int, date: string, parseNumber: string -> int)
    ensures var r := AddFundsToMethod(s, now, date, parseNumber);
      && r.newMethod == s.newMethod && r.modalVisible == s.modalVisible
      && r.confirmModalVisible == s.confirmModalVisible && r.isUpdating == s.isUpdating
      && r.confirmAction == s.confirmAction
      && r.storage - {MethodsKey, TransactionsKey} == s.storage - {MethodsKey, TransactionsKey}
  {
    var amount := AmountOf(s.fundsToAdd, parseNumber);
    var ms := Funded(s.paymentMethods, s.currentMethodId, amount);
    var saved := SavePaymentMethods(s.(paymentMethods := ms), ms);
    var keys := {MethodsKey, TransactionsKey};
    WriteInsideKeys(s.storage, MethodsKey, MethodsCell(Stored(ms)), keys);
    var found := FindMatch(s.paymentMethods, s.currentMethodId);
    if found.Some? && found.value.name != "" {
      var logged := LogTransaction(saved, found.value.name, amount, now, date);
      WriteInsideKeys(saved.storage, TransactionsKey, logged.storage[TransactionsKey], keys);
    }
  }

  /**
   * The transaction log after "Add Funds": one record more exactly when the
   * first record with the current id in the list before the update has a
   * non-empty name; the new record carries that old name and the amount
   * added. A later record with the same id is never consulted.
   */
  predicate LogsTopUp(s: State, now: int, date: string, parseNumber: string -> int, r: State) {
    var before := Transactions(s.storage);
    var after := Transactions(r.storage);
    match FindMatch(s.paymentMethods, s.currentMethodId)
    case Some(m) =>
      if m.name != "" then after == before + [Transaction(now, m.name, AmountOf(s.fundsToAdd, parseNumber), date)]
      else after == before
    case None => after == before
  }

  /**
   * "Add Funds" raises the funds of the matching records by the parsed
   * amount (zero for empty text), leaves every name, id and other record as
   * it was, writes the list, and resets the dialog.
   */
  lemma AddFundsSpec(s: State, now: int, date: string, parseNumber: string -> int)
    ensures var r := AddFundsToMethod(s, now, date, parseNumber);
      var amount := AmountOf(s.fundsToAdd, parseNumber);
      && (s.fundsToAdd == "" ==> amount == 0)
      && |r.paymentMethods| == |s.paymentMethods|
      && (forall i :: 0 <= i < |s.paymentMethods| ==>
            && r.paymentMethods[i].id == s.paymentMethods[i].id
            && r.paymentMethods[i].name == s.paymentMethods[i].name
            && r.paymentMethods[i].funds == s.paymentMethods[i].funds + (if Matches(s.paymentMethods[i], s.currentMethodId) then amount else 0))
      && Mirrored(r)
      && r.currentMethodId.None? && r.fundsToAdd == "" && !r.fundModalVisible
  {
    var amount := AmountOf(s.fundsToAdd, parseNumber);
    var ms := Funded(s.paymentMethods, s.currentMethodId, amount);
    var saved := SavePaymentMethods(s.(paymentMethods := ms), ms);
    FundedSpec(s.paymentMethods, s.currentMethodId, amount);
    var found := FindMatch(s.paymentMethods, s.currentMethodId);
    if found.Some? && found.value.name != "" {
      var logged := LogTransaction(saved, found.value.name, amount, now, date);
      LogCellKeepsMethods(saved.storage, logged.storage[TransactionsKey]);
    }
  }

  /**
   * "Add Funds" logs as `LogsTopUp` says: one record more exactly when the
   * first record with the current id in the list before the update has a
   * non-empty name, carrying that old name and the amount added.
   */
  lemma AddFundsLogging(s: State, now: int, date: string, parseNumber: string -> int)
    ensures LogsTopUp(s, now, date, parseNumber, AddFundsToMethod(s, now, date, parseNumber))
  {
    var amount := AmountOf(s.fundsToAdd, parseNumber);
    var ms := Funded(s.paymentMethods, s.currentMethodId, amount);
    var saved := SavePaymentMethods(s.(paymentMethods := ms), ms);
    MethodsCellKeepsLog(s.storage, MethodsCell(Stored(ms)));
    var r := AddFundsToMethod(s, now, date, parseNumber);
    FundedSpec(s.paymentMethods, s.currentMethodId, amount);
    var found := FindMatch(s.paymentMethods, s.currentMethodId);
    if found.Some? && found.value.name != "" {
      var logged := LogTransaction(saved, found.value.name, amount, now, date);
      assert r.storage == logged.storage;
    } else {
      assert r.storage == saved.storage;
    }
  }

  /**
   * Logging appends exactly one record at the end of the log, with an
   * absent cell read as an empty log, and writes no other cell.
   */
  lemma LogTransactionSpec(s: State, methodName: string, amount: int, now: int, date: string)
    ensures var r := LogTransaction(s, methodName, amount, now, date);
      && Transactions(r.storage) == Transactions(s.storage) + [Transaction(now, methodName, amount, date)]
      && (TransactionsKey !in s.storage ==> Transactions(r.storage) == [Transaction(now, methodName, amount, date)])
      && r.storage - {TransactionsKey} == s.storage - {TransactionsKey}
      && SavedMethods(r.storage) == SavedMethods(s.storage)
      && (WellShaped(s.storage) ==> WellShaped(r.storage))
      && r.(storage := s.storage) == s
  {
    var r := LogTransaction(s, methodName, amount, now, date);
    LogCellKeepsMethods(s.storage, r.storage[TransactionsKey]);
    KeysDistinct();
  }

  // ---------------------------------------------------------------------
  // The confirmation gate

  /** Asking again replaces whatever was pending and shows the dialog. */
  lemma ConfirmOverwrites(s: State, a: Action, b: Action)
    ensures ConfirmAndExecute(ConfirmAndExecute(s, a), b) == ConfirmAndExecute(s, b)
    ensures ConfirmAndExecute(s, b).confirmAction == Some(b) && ConfirmAndExecute(s, b).confirmModalVisible
  {
  }

  /** Asking for confirmation changes neither the ledger nor storage. */
  lemma ConfirmChangesNoLedger(s: State, a: Action)
    ensures ConfirmAndExecute(s, a).paymentMethods == s.paymentMethods
    ensures ConfirmAndExecute(s, a).storage == s.storage
  {
  }

  /** "Cancel" runs nothing: ledger, storage and every other field but the dialog flag are as before the request. */
  lemma CancelRunsNothing(s: State, a: Action)
    ensures var r := CancelConfirm(ConfirmAndExecute(s, a));
      && r.paymentMethods == s.paymentMethods && r.storage == s.storage
      && !r.confirmModalVisible
      && r.(confirmAction := s.confirmAction, confirmModalVisible := s.confirmModalVisible) == s
  {
  }

  /** "Yes" runs the most recently confirmed action once and hides the dialog; the action stays stored. */
  lemma YesRunsLatest(s: State, a: Action, b: Action, now: int, date: string, parseNumber: string -> int)
    ensures var p := ConfirmAndExecute(ConfirmAndExecute(s, a), b);
      var r := ExecuteConfirmedAction(p, now, date, parseNumber);
      && r == Run(p, b, now, date, parseNumber).(confirmModalVisible := false)
      && r.confirmAction == Some(b) && !r.confirmModalVisible
  {
  }

  /** Before any confirmation has been requested, "Yes" changes nothing. */
  lemma YesWithoutPendingIsInert(s: State, now: int, date: string, parseNumber: string -> int)
    requires s.confirmAction.None?
    ensures ExecuteConfirmedAction(s, now, date, parseNumber) == s
  {
  }

  /** A delete through the gate leaves the list alone until "Yes"; "Yes" then filters the id out. */
  lemma GatedDelete(s: State, id: int, now: int, date: string, parseNumber: string -> int)
    ensures var p := ConfirmAndExecute(s, DeleteMethod(id));
      && p.paymentMethods == s.paymentMethods
      && CancelConfirm(p).paymentMethods == s.paymentMethods
      && CancelConfirm(p).storage == s.storage
      && ExecuteConfirmedAction(p, now, date, parseNumber).paymentMethods == Removed(s.paymentMethods, id)
      && Transactions(ExecuteConfirmedAction(p, now, date, parseNumber).storage) == Transactions(s.storage)
  {
  }

  /** The three "Cancel" buttons close their own dialog, reset the fields they name and leave the ledger and storage unchanged. */
  lemma CancelsKeepLedger(s: State)
    ensures CancelConfirm(s).paymentMethods == s.paymentMethods && CancelConfirm(s).storage == s.storage
    ensures CancelMethodModal(s).paymentMethods == s.paymentMethods && CancelMethodModal(s).storage == s.storage
    ensures CancelFundsModal(s).paymentMethods == s.paymentMethods && CancelFundsModal(s).storage == s.storage
    ensures CancelMethodModal(s).currentMethodId.None? && !CancelMethodModal(s).isUpdating && CancelMethodModal(s).newMethod == ""
    ensures CancelFundsModal(s).currentMethodId.None? && CancelFundsModal(s).fundsToAdd == ""
    ensures !CancelConfirm(s).confirmModalVisible && !CancelMethodModal(s).modalVisible && !CancelFundsModal(s).fundModalVisible
  {
  }

  // ---------------------------------------------------------------------
  // Invariants over every event

  /** The stored funds that are present are non-negative. */
  predicate StoredNonNegative(storage: map<string, Cell>) {
    match SavedMethods(storage)
    case Some(stored) => forall i :: 0 <= i < |stored| && stored[i].funds.Some? ==> stored[i].funds.value >= 0
    case None => true
  }

  /** Well-shaped storage, and no negative balance in memory or in storage. */
  predicate Sound(s: State) {
    WellShaped(s.storage) && NonNegative(s.paymentMethods) && StoredNonNegative(s.storage)
  }

  /** "Add Funds" leaves memory and storage in agreement and keeps storage well-shaped. */
  lemma AddFundsStorage(s: State, now: int, date: string, parseNumber: string -> int)
    ensures var r := AddFundsToMethod(s, now, date, parseNumber);
      && Mirrored(r)
      && (WellShaped(s.storage) ==> WellShaped(r.storage))
  {
    var amount := AmountOf(s.fundsToAdd, parseNumber);
    var ms := Funded(s.paymentMethods, s.currentMethodId, amount);
    var saved := SavePaymentMethods(s.(paymentMethods := ms), ms);
    SaveSpec(s.(paymentMethods := ms), ms);
    var found := FindMatch(s.paymentMethods, s.currentMethodId);
    if found.Some? && found.value.name != "" {
      LogTransactionSpec(saved, found.value.name, amount, now, date);
    }
  }

  /** What one stored action does to the ledger, the log and storage's shape. */
  lemma RunFacts(s: State, a: Action, now: int, date: string, parseNumber: string -> int)
    ensures var r := Run(s, a, now, date, parseNumber);
      && (WellShaped(s.storage) ==> WellShaped(r.storage))
      && (a.OpenAddFunds? || a.OpenUpdate? ==> r.paymentMethods == s.paymentMethods && r.storage == s.storage)
      && (!a.AddFunds? ==> Transactions(r.storage) == Transactions(s.storage))
      && (a.AddFunds? ==> LogsTopUp(s, now, date, parseNumber, r))
      && (a.AddMethod? || a.UpdateMethod? || a.DeleteMethod? || a.AddFunds? ==> Mirrored(r))
  {
    match a {
      case AddMethod =>
        var ms := Appended(s.paymentMethods, now, s.newMethod);
        SaveSpec(s.(paymentMethods := ms), ms);
      case UpdateMethod =>
        var ms := Renamed(s.paymentMethods, s.currentMethodId, s.newMethod);
        SaveSpec(s.(paymentMethods := ms), ms);
      case DeleteMethod(id) =>
        var ms := Removed(s.paymentMethods, id);
        SaveSpec(s.(paymentMethods := ms), ms);
      case AddFunds =>
        AddFundsStorage(s, now, date, parseNumber);
        AddFundsLogging(s, now, date, parseNumber);
      case OpenAddFunds(_) =>
      case OpenUpdate(_) =>
    }
  }

  /** A stored action keeps every balance non-negative unless it is "Add Funds" with a negative amount. */
  lemma RunKeepsNonNegative(s: State, a: Action, now: int, date: string, parseNumber: string -> int)
    requires NonNegative(s.paymentMethods)
    requires a.AddFunds? ==> AmountOf(s.fundsToAdd, parseNumber) >= 0
    ensures NonNegative(Run(s, a, now, date, parseNumber).paymentMethods)
  {
    match a {
      case DeleteMethod(id) =>
        var ms := Removed(s.paymentMethods, id);
        forall k | 0 <= k < |ms| ensures ms[k].funds >= 0 {
          RemovedMembers(s.paymentMethods, id, ms[k]);
        }
      case AddFunds =>
        FundedNonDecreasing(s.paymentMethods, s.currentMethodId, AmountOf(s.fundsToAdd, parseNumber));
      case UpdateMethod =>
        RenamedSpec(s.paymentMethods, s.currentMethodId, s.newMethod);
      case _ =>
    }
  }

  /**
   * No event stores a cell of the wrong shape, and no event makes a
   * balance negative, in memory or in storage, unless it is "Yes" on a
   * pending "Add Funds" whose text parses to a negative amount (the code
   * accepts such text).
   */
  lemma HandlePreservesSound(s: State, e: Event, parseNumber: string -> int)
    requires Sound(s)
    requires e.PressYes? && s.confirmAction == Some(AddFunds) ==> AmountOf(s.fundsToAdd, parseNumber) >= 0
    ensures Sound(Handle(s, e, parseNumber))
  {
    match e {
      case Mount =>
        match SavedMethods(s.storage) {
          case Some(stored) =>
            var ms := Normalised(stored);
            NormalisedSpec(stored);
            assert NonNegative(ms);
          case None =>
        }
      case PressYes(now, date) =>
        if s.confirmAction.Some? {
          var a := s.confirmAction.value;
          var r := Run(s, a, now, date, parseNumber);
          RunFacts(s, a, now, date, parseNumber);
          RunKeepsNonNegative(s, a, now, date, parseNumber);
          if a.OpenAddFunds? || a.OpenUpdate? {
            assert StoredNonNegative(r.storage);
          } else {
            assert SavedMethods(r.storage) == Some(Stored(r.paymentMethods));
            StoredSpec(r.paymentMethods);
          }
        }
      case _ =>
    }
  }

  /**
   * The transaction log is append-only: every event keeps the old log as a
   * prefix and adds at most one record, and a record is added only by "Yes"
   * on a pending "Add Funds".
   */
  lemma LogIsAppendOnly(s: State, e: Event, parseNumber: string -> int)
    ensures var before := Transactions(s.storage);
      var after := Transactions(Handle(s, e, parseNumber).storage);
      && before <= after
      && |after| <= |before| + 1
      && (|after| > |before| ==> e.PressYes? && s.confirmAction == Some(AddFunds))
  {
    if e.PressYes? && s.confirmAction.Some? {
      RunFacts(s, s.confirmAction.value, e.now, e.date, parseNumber);
    }
  }

  /** Once memory and storage agree, every event keeps them in agreement. */
  lemma HandleKeepsMirrored(s: State, e: Event, parseNumber: string -> int)
    requires Mirrored(s)
    ensures Mirrored(Handle(s, e, parseNumber))
  {
    if e.Mount? {
      ReloadIsNoOp(s);
    } else if e.PressYes? && s.confirmAction.Some? {
      RunFacts(s, s.confirmAction.value, e.now, e.date, parseNumber);
    }
  }

  /** "Yes" on a pending "Add": one record is appended and the log is kept. */
  lemma YesAddStep(p: State, now: int, date: string, parseNumber: string -> int)
    requires p.confirmAction == Some(AddMethod)
    ensures var r := ExecuteConfirmedAction(p, now, date, parseNumber);
      && r.paymentMethods == p.paymentMethods + [PaymentMethod(now, p.newMethod, 0)]
      && Transactions(r.storage) == Transactions(p.storage)
  {
    RunFacts(p, AddMethod, now, date, parseNumber);
  }

  /** "Yes" on a pending dialog opener: the ledger and storage are kept. */
  lemma YesOpenStep(p: State, now: int, date: string, parseNumber: string -> int)
    requires p.confirmAction.Some? && (p.confirmAction.value.OpenAddFunds? || p.confirmAction.value.OpenUpdate?)
    ensures var r := ExecuteConfirmedAction(p, now, date, parseNumber);
      && r.paymentMethods == p.paymentMethods && r.storage == p.storage
      && r.currentMethodId == Some(match p.confirmAction.value
           case OpenAddFunds(id) => id
           case OpenUpdate(item) => item.id
           case _ => 0)
  {
  }

  /**
   * "Yes" on a pending "Add Funds" whose first record with the current id
   * is `m`, with a non-empty name: the matching balances rise by the amount
   * and one entry under `m`'s name is logged.
   */
  lemma YesAddFundsStep(p: State, m: PaymentMethod, now: int, date: string, parseNumber: string -> int)
    requires p.confirmAction == Some(AddFunds)
    requires FindMatch(p.paymentMethods, p.currentMethodId) == Some(m) && m.name != ""
    ensures var r := ExecuteConfirmedAction(p, now, date, parseNumber);
      var amount := AmountOf(p.fundsToAdd, parseNumber);
      && r.paymentMethods == Funded(p.paymentMethods, p.currentMethodId, amount)
      && Transactions(r.storage) == Transactions(p.storage) + [Transaction(now, m.name, amount, date)]
  {
    RunFacts(p, AddFunds, now, date, parseNumber);
  }

  /** "Yes" on a pending "Update": the records with the current id get the entered name and the log is kept. */
  lemma YesUpdateStep(p: State, now: int, date: string, parseNumber: string -> int)
    requires p.confirmAction == Some(UpdateMethod)
    ensures var r := ExecuteConfirmedAction(p, now, date, parseNumber);
      && r.paymentMethods == Renamed(p.paymentMethods, p.currentMethodId, p.newMethod)
      && Transactions(r.storage) == Transactions(p.storage)
  {
    RunFacts(p, UpdateMethod, now, date, parseNumber);
  }

  /** "Yes" on a pending "Delete" of the only record: the list is empty and the log is kept. */
  lemma YesDeleteStep(p: State, m: PaymentMethod, now: int, date: string, parseNumber: string -> int)
    requires p.confirmAction == Some(DeleteMethod(m.id))
    requires p.paymentMethods == [m]
    ensures var r := ExecuteConfirmedAction(p, now, date, parseNumber);
      && r.paymentMethods == []
      && Transactions(r.storage) == Transactions(p.storage)
  {
    RunFacts(p, DeleteMethod(m.id), now, date, parseNumber);
  }

  /**
   * The end-to-end flow: add "Visa", top it up by 5075 cents, rename it,
   * delete it. The log keeps the top-up under the old name throughout.
   */
  lemma VisaFlow(parseNumber: string -> int)
    requires parseNumber("50.75") == 5075
    ensures
      var s0 := LoadPaymentMethods(Initial(map[]));
      var s1 := ExecuteConfirmedAction(ConfirmAndExecute(EnterMethodName(OpenAddModal(s0), "Visa"), AddMethod), 1, "t1", parseNumber);
      var s2 := ExecuteConfirmedAction(ConfirmAndExecute(s1, OpenAddFunds(1)), 2, "t2", parseNumber);
      var s3 := ExecuteConfirmedAction(ConfirmAndExecute(EnterFundsAmount(s2, "50.75"), AddFunds), 3, "t3", parseNumber);
      var s4 := ExecuteConfirmedAction(ConfirmAndExecute(s3, OpenUpdate(s3.paymentMethods[0])), 4, "t4", parseNumber);
      var s5 := ExecuteConfirmedAction(ConfirmAndExecute(EnterMethodName(s4, "Visa Credit"), UpdateMethod), 5, "t5", parseNumber);
      var s6 := ExecuteConfirmedAction(ConfirmAndExecute(s5, DeleteMethod(1)), 6, "t6", parseNumber);
      && s1.paymentMethods == [PaymentMethod(1, "Visa", 0)]
      && s3.paymentMethods == [PaymentMethod(1, "Visa", 5075)]
      && Transactions(s3.storage) == [Transaction(3, "Visa", 5075, "t3")]
      && s5.paymentMethods == [PaymentMethod(1, "Visa Credit", 5075)]
      && Transactions(s5.storage) == [Transaction(3, "Visa", 5075, "t3")]
      && s6.paymentMethods == []
      && Transactions(s6.storage) == [Transaction(3, "Visa", 5075, "t3")]
  {
    var visa := PaymentMethod(1, "Visa", 0);
    var s0 := LoadPaymentMethods(Initial(map[]));
    assert s0.paymentMethods == [] && Transactions(s0.storage) == [];

    var p1 := ConfirmAndExecute(EnterMethodName(OpenAddModal(s0), "Visa"), AddMethod);
    var s1 := ExecuteConfirmedAction(p1, 1, "t1", parseNumber);
    YesAddStep(p1, 1, "t1", parseNumber);

    var p2 := ConfirmAndExecute(s1, OpenAddFunds(1));
    var s2 := ExecuteConfirmedAction(p2, 2, "t2", parseNumber);
    YesOpenStep(p2, 2, "t2", parseNumber);

    var p3 := ConfirmAndExecute(EnterFundsAmount(s2, "50.75"), AddFunds);
    var s3 := ExecuteConfirmedAction(p3, 3, "t3", parseNumber);
    assert FindMatch([visa], Some(1)) == Some(visa);
    YesAddFundsStep(p3, visa, 3, "t3", parseNumber);
    assert Funded([visa], Some(1), 5075) == [PaymentMethod(1, "Visa", 5075)];
    var log := [Transaction(3, "Visa", 5075, "t3")];

    var funded := PaymentMethod(1, "Visa", 5075);
    var p4 := ConfirmAndExecute(s3, OpenUpdate(funded));
    var s4 := ExecuteConfirmedAction(p4, 4, "t4", parseNumber);
    YesOpenStep(p4, 4, "t4", parseNumber);

    var p5 := ConfirmAndExecute(EnterMethodName(s4, "Visa Credit"), UpdateMethod);
    var s5 := ExecuteConfirmedAction(p5, 5, "t5", parseNumber);
    YesUpdateStep(p5, 5, "t5", parseNumber);
    assert Renamed([funded], Some(1), "Visa Credit") == [PaymentMethod(1, "Visa Credit", 5075)];

    var p6 := ConfirmAndExecute(s5, DeleteMethod(1));
    var s6 := ExecuteConfirmedAction(p6, 6, "t6", parseNumber);
    YesDeleteStep(p6, PaymentMethod(1, "Visa Credit", 5075), 6, "t6", parseNumber);
  }
}
