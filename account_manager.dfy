/**
 * The payment-method screen as the component it is: an object whose state
 * variables its handlers overwrite one after another. Each handler is
 * proved to leave the object in the state the matching function of module
 * ScreenState computes from the state before.
 */
module Screen {
  import opened Wrappers
  import opened Ledger
  import ScreenState

  class AccountManager {
    var paymentMethods: seq<PaymentMethod>
    var storage: map<string, ScreenState.Cell>
    var newMethod: string
    var modalVisible: bool
    var fundModalVisible: bool
    var confirmModalVisible: bool
    var isUpdating: bool
    var currentMethodId: Option<int>
    var fundsToAdd: string
    var confirmAction: Option<ScreenState.Action>
    /** `parseFloat` on non-empty text. */
    const parseNumber: string -> int

    /** The object's state as a value. */
    function Snapshot(): ScreenState.State
      reads this
    {
      ScreenState.State(paymentMethods, storage, newMethod, modalVisible, fundModalVisible,
        confirmModalVisible, isUpdating, currentMethodId, fundsToAdd, confirmAction)
    }

    /** The first render: every state variable at its initial value. */
    constructor (storage: map<string, ScreenState.Cell>, parseNumber: string -> int)
      ensures Snapshot() == ScreenState.Initial(storage)
      ensures this.parseNumber == parseNumber
    {
      paymentMethods := [];
      this.storage := storage;
      newMethod := "";
      modalVisible := false;
      fundModalVisible := false;
      confirmModalVisible := false;
      isUpdating := false;
      currentMethodId := None;
      fundsToAdd := "";
      confirmAction := None;
      this.parseNumber := parseNumber;
    }

    method LoadPaymentMethods()
      modifies this
      ensures Snapshot() == ScreenState.LoadPaymentMethods(old(Snapshot()))
    {
      var saved := ScreenState.SavedMethods(storage);
      if saved.Some? {
        paymentMethods := Normalised(saved.value);
      }
    }

    method SavePaymentMethods(methods: seq<PaymentMethod>)
      modifies this
      ensures Snapshot() == ScreenState.SavePaymentMethods(old(Snapshot()), methods)
    {
      storage := storage[ScreenState.MethodsKey := ScreenState.MethodsCell(Stored(methods))];
    }

    method ConfirmAndExecute(action: ScreenState.Action)
      modifies this
      ensures Snapshot() == ScreenState.ConfirmAndExecute(old(Snapshot()), action)
    {
      confirmAction := Some(action);
      confirmModalVisible := true;
    }

    /** "Yes": calls the stored action, then hides the dialog. */
    method ExecuteConfirmedAction(now: int, date: string)
      modifies this
      ensures Snapshot() == ScreenState.ExecuteConfirmedAction(old(Snapshot()), now, date, parseNumber)
    {
      match confirmAction {
        case None =>
          // `confirmAction()` throws on the initial undefined value; nothing after it runs.
        case Some(action) =>
          Run(action, now, date);
          confirmModalVisible := false;
      }
    }

    /** The call of a stored closure. */
    method Run(action: ScreenState.Action, now: int, date: string)
      modifies this
      ensures Snapshot() == ScreenState.Run(old(Snapshot()), action, now, date, parseNumber)
    {
      match action {
        case OpenAddFunds(id) => OpenAddFundsModal(id);
        case OpenUpdate(item) => OpenUpdateModal(item);
        case DeleteMethod(id) => DeletePaymentMethod(id);
        case AddMethod => AddPaymentMethod(now);
        case UpdateMethod => UpdatePaymentMethod();
        case AddFunds => AddFundsToMethod(now, date);
      }
    }

    method AddPaymentMethod(now: int)
      modifies this
      ensures Snapshot() == ScreenState.AddPaymentMethod(old(Snapshot()), now)
    {
      var updated := Appended(paymentMethods, now, newMethod);
      paymentMethods := updated;
      SavePaymentMethods(updated);
      newMethod := "";
      modalVisible := false;
    }

    method UpdatePaymentMethod()
      modifies this
      ensures Snapshot() == ScreenState.UpdatePaymentMethod(old(Snapshot()))
    {
      var updated := Renamed(paymentMethods, currentMethodId, newMethod);
      paymentMethods := updated;
      SavePaymentMethods(updated);
      newMethod := "";
      modalVisible := false;
      isUpdating := false;
      currentMethodId := None;
    }

    method DeletePaymentMethod(id: int)
      modifies this
      ensures Snapshot() == ScreenState.DeletePaymentMethod(old(Snapshot()), id)
    {
      var updated := Removed(paymentMethods, id);
      paymentMethods := updated;
      SavePaymentMethods(updated);
    }

    method OpenAddFundsModal(id: int)
      modifies this
      ensures Snapshot() == ScreenState.OpenAddFundsModal(old(Snapshot()), id)
    {
      currentMethodId := Some(id);
      fundModalVisible := true;
    }

    method AddFundsToMethod(now: int, date: string)
      modifies this
      ensures Snapshot() == ScreenState.AddFundsToMethod(old(Snapshot()), now, date, parseNumber)
    {
      ghost var s := Snapshot();
      var before := paymentMethods;
      var amount := ScreenState.AmountOf(fundsToAdd, parseNumber);
      var updated := Funded(paymentMethods, currentMethodId, amount);
      paymentMethods := updated;
      SavePaymentMethods(updated);
      ghost var saved := Snapshot();
      assert saved == ScreenState.SavePaymentMethods(s.(paymentMethods := updated), updated);

      var found := FindMatch(before, currentMethodId);
      if found.Some? && found.value.name != "" {
        LogTransaction(found.value.name, amount, now, date);
      }
      assert Snapshot() == if found.Some? && found.value.name != "" then ScreenState.LogTransaction(saved, found.value.name, amount, now, date) else saved;

      fundsToAdd := "";
      fundModalVisible := false;
      currentMethodId := None;
    }

    method LogTransaction(methodName: string, amount: int, now: int, date: string)
      modifies this
      ensures Snapshot() == ScreenState.LogTransaction(old(Snapshot()), methodName, amount, now, date)
    {
      var newTransaction := Transaction(now, methodName, amount, date);
      var transactions := ScreenState.Transactions(storage);
      transactions := transactions + [newTransaction];
      storage := storage[ScreenState.TransactionsKey := ScreenState.TransactionsCell(transactions)];
    }

    method OpenUpdateModal(item: PaymentMethod)
      modifies this
      ensures Snapshot() == ScreenState.OpenUpdateModal(old(Snapshot()), item)
    {
      newMethod := item.name;
      currentMethodId := Some(item.id);
      isUpdating := true;
      modalVisible := true;
    }

    /** "+ Add Payment Method". */
    method OpenAddModal()
      modifies this
      ensures Snapshot() == ScreenState.OpenAddModal(old(Snapshot()))
    {
      modalVisible := true;
    }

    /** Typing in the name field. */
    method EnterMethodName(text: string)
      modifies this
      ensures Snapshot() == ScreenState.EnterMethodName(old(Snapshot()), text)
    {
      newMethod := text;
    }

    /** Typing in the amount field. */
    method EnterFundsAmount(text: string)
      modifies this
      ensures Snapshot() == ScreenState.EnterFundsAmount(old(Snapshot()), text)
    {
      fundsToAdd := text;
    }

    /** "Cancel" in the confirmation dialog. */
    method CancelConfirm()
      modifies this
      ensures Snapshot() == ScreenState.CancelConfirm(old(Snapshot()))
    {
      confirmModalVisible := false;
    }

    /** "Cancel" in the name dialog. */
    method CancelMethodModal()
      modifies this
      ensures Snapshot() == ScreenState.CancelMethodModal(old(Snapshot()))
    {
      modalVisible := false;
      isUpdating := false;
      newMethod := "";
      currentMethodId := None;
    }

    /** "Cancel" in the funds dialog. */
    method CancelFundsModal()
      modifies this
      ensures Snapshot() == ScreenState.CancelFundsModal(old(Snapshot()))
    {
      fundModalVisible := false;
      fundsToAdd := "";
      currentMethodId := None;
    }
  }

  /** A client: a delete request that is cancelled leaves every field but the stored action and the dialog flag as it was. */
  method CancelledDelete(m: AccountManager, id: int)
    modifies m
    ensures m.paymentMethods == old(m.paymentMethods) && m.storage == old(m.storage)
    ensures m.newMethod == old(m.newMethod) && m.modalVisible == old(m.modalVisible)
    ensures m.fundModalVisible == old(m.fundModalVisible) && m.isUpdating == old(m.isUpdating)
    ensures m.currentMethodId == old(m.currentMethodId) && m.fundsToAdd == old(m.fundsToAdd)
    ensures !m.confirmModalVisible && m.confirmAction == Some(ScreenState.DeleteMethod(id))
  {
    m.ConfirmAndExecute(ScreenState.DeleteMethod(id));
    m.CancelConfirm();
  }

  /** A client: a delete that is cancelled and then requested again and confirmed filters the list and keeps the log. */
  method DeleteThroughGate(m: AccountManager, id: int, now: int, date: string)
    modifies m
    ensures m.paymentMethods == Removed(old(m.paymentMethods), id)
    ensures ScreenState.Transactions(m.storage) == ScreenState.Transactions(old(m.storage))
    ensures !m.confirmModalVisible
  {
    var before := m.Snapshot();
    CancelledDelete(m, id);
    assert m.paymentMethods == before.paymentMethods && m.storage == before.storage;
    m.ConfirmAndExecute(ScreenState.DeleteMethod(id));
    m.ExecuteConfirmedAction(now, date);
    ScreenState.GatedDelete(before, id, now, date, m.parseNumber);
  }
}
