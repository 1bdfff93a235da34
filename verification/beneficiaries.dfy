/** The beneficiary editor: a list of wallet ids edited in the page and
    saved wholesale. */
module Beneficiaries {
  import opened Wrappers
  import opened Http
  import opened Store
  import opened Client
  import Wallet

  datatype Editor = Editor(items: seq<string>, input: string)

  /** The list loaded from the wallet profile, or empty when the profile
      has none. */
  function Initial(loaded: Option<seq<string>>): (items: seq<string>)
    ensures loaded.Some? ==> items == loaded.value
    ensures loaded.None? ==> items == []
  {
    if loaded.Some? then loaded.value else []
  }

  /** `add`: an empty input does nothing; otherwise the input is appended,
      duplicates included, and cleared. */
  function Add(e: Editor): (r: Editor)
    ensures e.input == "" ==> r == e
    ensures e.input != "" ==> |r.items| == |e.items| + 1 && r.items[..|e.items|] == e.items
                              && r.items[|e.items|] == e.input && r.input == ""
  {
    if e.input == "" then e else Editor(e.items + [e.input], "")
  }

  /** The remove button of row `i`: keep every entry whose position is not
      `i`, scanning the list from the front. */
  function Remove(items: seq<string>, i: int): (r: seq<string>)
    ensures 0 <= i < |items| ==> r == items[..i] + items[i + 1..]
    ensures !(0 <= i < |items|) ==> r == items
  {
    KeepOthers(items, i, 0)
  }

  /** The entries of `items` whose position, counted from `offset`, is not
      `i`. */
  function KeepOthers(items: seq<string>, i: int, offset: int): (r: seq<string>)
    ensures offset <= i < offset + |items| ==> r == items[..i - offset] + items[i - offset + 1..]
    ensures !(offset <= i < offset + |items|) ==> r == items
    decreases |items|
  {
    if |items| == 0 then []
    else
      var rest := KeepOthers(items[1..], i, offset + 1);
      if offset == i then
        rest
      else
        assert items == [items[0]] + items[1..];
        [items[0]] + rest
  }

  /** Adding an entry and removing it again restores the list. */
  lemma AddThenRemove(e: Editor)
    requires e.input != ""
    ensures Remove(Add(e).items, |e.items|) == e.items
  {
    var r := Add(e).items;
    assert r[..|e.items|] == e.items;
    assert r[|e.items| + 1..] == [];
    assert r[..|e.items|] + r[|e.items| + 1..] == e.items;
  }

  /** Removing shortens by one and keeps the order of the others. */
  lemma RemoveKeepsOrder(items: seq<string>, i: int, j: int)
    requires 0 <= i < |items| && 0 <= j < |items| - 1
    ensures Remove(items, i)[j] == if j < i then items[j] else items[j + 1]
  {
  }

  const SaveFallback := "Failed"

  /** The save button: the request carries the whole current list; the
      message line shows the reply's message (nothing when it has none),
      or the error. */
  datatype Saved = Saved(request: seq<string>, msg: string)

  function Save(e: Editor, answer: Answer): (r: Saved)
    ensures r.request == e.items
    ensures answer.Answered? ==> r.msg == (if answer.message.Some? then answer.message.value else "")
    ensures answer.Refused? ==> r.msg == TextOr(answer.serverError, SaveFallback)
  {
    var msg := match answer
      case Answered(m) => if m.Some? then m.value else ""
      case Refused(err) => TextOr(err, SaveFallback);
    Saved(e.items, msg)
  }

  /** After a save the wallet owner's stored list is exactly the page's
      list, and a reload of the page shows it again. */
  lemma SaveStoresList(db: Db, w: string, e: Editor, answer: Answer, bindText: string)
    requires UserByWallet(db.users, w).Some?
    ensures var handled := Wallet.UpdateBeneficiaries(db, w, Parsed(Save(e, answer).request));
      var after := handled.db;
      var i := UserByWallet(db.users, w).value;
      && after.users[i].beneficiaries == e.items
      && Initial(Some(after.users[i].beneficiaries)) == e.items
      && Save(e, AnswerOf(handled.reply, bindText)).msg == "beneficiaries updated"
  {
  }
}
