/** The dialpad of the home page: the number buffer the keypad edits and the
    decision the call button takes. The SIP user agent and the current call
    live in refs; the model keeps only whether each is set. */
module Dialpad {

  /** The keypad's buttons, in the order they are laid out. */
  const Keypad: seq<string> := ["1", "2", "3", "4", "5", "6", "7", "8", "9", "*", "0", "#"]

  const KeypadSymbols: set<char> := {'1', '2', '3', '4', '5', '6', '7', '8', '9', '*', '0', '#'}

  const NotRegistered := "Not registered. Please configure your SIP settings."
  const CallEnded := "Call ended"
  const EnterNumber := "Please enter a phone number"

  /** `prev.slice(0, -1)`: everything but the last character. */
  function DropLast(s: string): (r: string)
    ensures s == [] ==> r == []
    ensures s != [] ==> r + [s[|s| - 1]] == s
  {
    if s == [] then [] else s[..|s| - 1]
  }

  /** Backspace undoes one appended character. */
  lemma BackspaceUndoesAppend(s: string, c: char)
    ensures DropLast(s + [c]) == s
  {
  }

  /** Every keypad button appends exactly one keypad symbol. */
  lemma KeypadButtonsAreSymbols()
    ensures forall k :: 0 <= k < |Keypad| ==> |Keypad[k]| == 1 && Keypad[k][0] in KeypadSymbols
    ensures forall c :: c in KeypadSymbols ==> exists k :: 0 <= k < |Keypad| && Keypad[k] == [c]
  {
    forall c | c in KeypadSymbols
      ensures exists k :: 0 <= k < |Keypad| && Keypad[k] == [c]
    {
      if c == '1' { assert Keypad[0] == [c]; }
      else if c == '2' { assert Keypad[1] == [c]; }
      else if c == '3' { assert Keypad[2] == [c]; }
      else if c == '4' { assert Keypad[3] == [c]; }
      else if c == '5' { assert Keypad[4] == [c]; }
      else if c == '6' { assert Keypad[5] == [c]; }
      else if c == '7' { assert Keypad[6] == [c]; }
      else if c == '8' { assert Keypad[7] == [c]; }
      else if c == '9' { assert Keypad[8] == [c]; }
      else if c == '*' { assert Keypad[9] == [c]; }
      else if c == '0' { assert Keypad[10] == [c]; }
      else { assert Keypad[11] == [c]; }
    }
  }

  /** The state of the home page's dialer. */
  class Dialer {
    var phoneNumber: string
    var isConnected: bool
    var callStatus: string
    /** `uaRef.current` is set: a SIP user agent is registered. */
    var registered: bool
    /** `currentCallRef.current` is set: a call is in progress. */
    var inCall: bool

    /** The page as it mounts: both refs are null, the number and status empty. */
    constructor ()
      ensures phoneNumber == "" && !isConnected && callStatus == "" && !registered && !inCall
    {
      phoneNumber, isConnected, callStatus := "", false, "";
      registered, inCall := false, false;
    }

    /** `handleNumberClick(num)` */
    method NumberClick(num: string)
      modifies this`phoneNumber
      ensures phoneNumber == old(phoneNumber) + num
    {
      phoneNumber := phoneNumber + num;
    }

    /** A click on keypad button `k`. */
    method PressKey(k: nat)
      requires k < |Keypad|
      modifies this`phoneNumber
      ensures phoneNumber == old(phoneNumber) + Keypad[k]
      ensures |phoneNumber| == |old(phoneNumber)| + 1
      ensures phoneNumber[..|old(phoneNumber)|] == old(phoneNumber)
      ensures phoneNumber[|phoneNumber| - 1] in KeypadSymbols
    {
      KeypadButtonsAreSymbols();
      NumberClick(Keypad[k]);
    }

    /** Typing into the number field. */
    method Edit(text: string)
      modifies this`phoneNumber
      ensures phoneNumber == text
    {
      phoneNumber := text;
    }

    /** `handleClear` */
    method Clear()
      modifies this`phoneNumber
      ensures phoneNumber == ""
    {
      phoneNumber := "";
    }

    /** `handleBackspace` */
    method Backspace()
      modifies this`phoneNumber
      ensures phoneNumber == DropLast(old(phoneNumber))
    {
      phoneNumber := DropLast(phoneNumber);
    }

    /** `handleCall`: checks registration, then an active call, then the number. */
    method Call()
      modifies this`callStatus, this`isConnected, this`inCall
      ensures !old(registered) ==>
        callStatus == NotRegistered && isConnected == old(isConnected) && inCall == old(inCall)
      ensures old(registered) && old(inCall) ==>
        !inCall && !isConnected && callStatus == CallEnded
      ensures old(registered) && !old(inCall) && phoneNumber == "" ==>
        callStatus == EnterNumber && isConnected == old(isConnected) && !inCall
      ensures old(registered) && !old(inCall) && phoneNumber != "" ==>
        callStatus == old(callStatus) && isConnected == old(isConnected) && !inCall
    {
      if !registered {
        callStatus := NotRegistered;
        return;
      }
      if inCall {
        inCall := false;
        isConnected := false;
        callStatus := CallEnded;
        return;
      }
      if phoneNumber == "" {
        callStatus := EnterNumber;
      }
    }
  }

  /** A click on the Call button, which is enabled only while `isConnected`:
      a click on the disabled button does nothing. */
  method CallButton(d: Dialer)
    modifies d`callStatus, d`isConnected, d`inCall
    ensures !old(d.isConnected) ==>
      d.callStatus == old(d.callStatus) && !d.isConnected && d.inCall == old(d.inCall)
    ensures old(d.isConnected) && !old(d.registered) ==>
      d.callStatus == NotRegistered && d.isConnected && d.inCall == old(d.inCall)
    ensures old(d.isConnected) && old(d.registered) && old(d.inCall) ==>
      !d.inCall && !d.isConnected && d.callStatus == CallEnded
    ensures old(d.isConnected) && old(d.registered) && !old(d.inCall) ==>
      d.isConnected && !d.inCall
      && d.callStatus == (if d.phoneNumber == "" then EnterNumber else old(d.callStatus))
  {
    if d.isConnected {
      d.Call();
    }
  }

  /** What a user can do on the page. */
  datatype Action =
    | PressKeyAction(k: nat)
    | TypeAction(text: string)
    | ClearAction
    | BackspaceAction
    | CallAction

  /** Runs `actions` on a freshly mounted page. Nothing on the page sets
      `isConnected`, so the Call button stays disabled, `handleCall` never
      runs and the status stays empty (the badge shows "Not registered"). */
  method FreshPage(actions: seq<Action>) returns (phoneNumber: string, isConnected: bool, callStatus: string)
    requires forall i :: 0 <= i < |actions| && actions[i].PressKeyAction? ==> actions[i].k < |Keypad|
    ensures !isConnected && callStatus == ""
  {
    var d := new Dialer();
    for i := 0 to |actions|
      invariant !d.isConnected && d.callStatus == ""
    {
      match actions[i]
      case PressKeyAction(k) => d.PressKey(k);
      case TypeAction(text) => d.Edit(text);
      case ClearAction => d.Clear();
      case BackspaceAction => d.Backspace();
      case CallAction => CallButton(d);
    }
    phoneNumber, isConnected, callStatus := d.phoneNumber, d.isConnected, d.callStatus;
  }
}
