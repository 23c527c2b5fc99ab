/**
 * What a handler shows the user. The Telegram calls (`reply_text`,
 * `edit_message_text`, `send_audio`, `delete_message`, `send_message`) are
 * recorded as a sequence of `Out` values instead of being performed, and a
 * keyboard is described by its rows.
 */
module Render {

  /** An inline keyboard button: its caption and its callback data. */
  datatype Button = Button(caption: string, callback: string)

  datatype Keyboard =
    | NoKeyboard
      /** `start_menu`: the six main-menu buttons, one per row. */
    | StartMenu
      /** `back_button`: the back button, then the home button. */
    | BackMenu
    | ReplyKeys(keys: seq<seq<string>>)
    | InlineKeys(buttons: seq<seq<Button>>)

  datatype Out =
      /** `update.message.reply_text` or a message sent to the user's own chat. */
    | Reply(text: string, keyboard: Keyboard)
      /** `query.edit_message_text`: replaces the text of the message holding the pressed button. */
    | Edit(text: string)
      /** `edit_message_text` that also replaces the keyboard under the message. */
    | EditMenu(text: string, keyboard: Keyboard)
      /** `reply_audio` / `send_audio` to the user's chat. */
    | Audio(url: string)
      /** `bot.delete_message` in the user's chat. */
    | Delete(messageId: int)
      /** `bot.send_message` to another chat. */
    | Send(chat: int, text: string, keyboard: Keyboard)

  /**
   * The rows a loop builds when it appends each item to `row` and moves
   * `row` into the keyboard whenever it holds two items, then adds a last,
   * shorter row if one is left.
   */
  function Pairs<T>(xs: seq<T>): seq<seq<T>>
    decreases |xs|
  {
    if xs == [] then []
    else if |xs| <= 2 then [xs]
    else [xs[..2]] + Pairs(xs[2..])
  }

  /** The items of `rows`, row by row. */
  function Flatten<T>(rows: seq<seq<T>>): seq<T> {
    if rows == [] then [] else rows[0] + Flatten(rows[1..])
  }

  /** Pairing an even-length prefix and the rest separately gives the same rows. */
  lemma {:induction false} PairsAppend<T>(a: seq<T>, b: seq<T>)
    requires |a| % 2 == 0
    ensures Pairs(a + b) == Pairs(a) + Pairs(b)
    decreases |a|
  {
    if a == [] {
      assert a + b == b;
    } else {
      assert |a| >= 2;
      assert (a + b)[..2] == a[..2];
      assert (a + b)[2..] == a[2..] + b;
      PairsAppend(a[2..], b);
      if |a + b| <= 2 {
        assert b == [] && a + b == a;
      } else if |a| == 2 {
        assert a[2..] == [];
        assert Pairs(a[2..]) == [];
      }
    }
  }

  /** Closing a full row after `k` items (an even number) appends that row. */
  lemma PairsStep<T>(xs: seq<T>, k: nat)
    requires k % 2 == 0 && k + 2 <= |xs|
    ensures Pairs(xs[..k + 2]) == Pairs(xs[..k]) + [xs[k..k + 2]]
  {
    assert xs[..k + 2] == xs[..k] + xs[k..k + 2];
    PairsAppend(xs[..k], xs[k..k + 2]);
  }

  /** The last, possibly shorter row closes the pairing. */
  lemma PairsFinish<T>(xs: seq<T>, k: nat)
    requires k % 2 == 0 && k <= |xs| <= k + 1
    ensures Pairs(xs) == Pairs(xs[..k]) + (if k == |xs| then [] else [xs[k..]])
  {
    assert xs == xs[..k] + xs[k..];
    PairsAppend(xs[..k], xs[k..]);
  }

  /**
   * Where a pairing loop stands after `i` items: the open `row` holds the
   * items since the last full row, and `rows` the pairs of the items before.
   */
  ghost predicate RowsSoFar<T>(all: seq<T>, i: nat, row: seq<T>, rows: seq<seq<T>>) {
    |row| < 2 && |row| <= i <= |all| && (i - |row|) % 2 == 0
    && row == all[i - |row|..i] && rows == Pairs(all[..i - |row|])
  }

  /** Appending the next item, and moving a full row into the keyboard, keeps `RowsSoFar`. */
  lemma RowsStep<T>(all: seq<T>, i: nat, row: seq<T>, rows: seq<seq<T>>)
    requires i < |all| && RowsSoFar(all, i, row, rows)
    ensures |row + [all[i]]| == 2 ==> RowsSoFar(all, i + 1, [], rows + [row + [all[i]]])
    ensures |row + [all[i]]| < 2 ==> RowsSoFar(all, i + 1, row + [all[i]], rows)
  {
    assert row + [all[i]] == all[i - |row|..i + 1];
    if |row| == 1 {
      PairsStep(all, i - 1);
    }
  }

  /** After the last item, adding the open row when it is not empty gives the pairing of all items. */
  lemma RowsFinish<T>(all: seq<T>, row: seq<T>, rows: seq<seq<T>>)
    requires RowsSoFar(all, |all|, row, rows)
    ensures (if row != [] then rows + [row] else rows) == Pairs(all)
  {
    var k := |all| - |row|;
    assert rows == Pairs(all[..k]) && row == all[k..];
    PairsFinish(all, k);
    if row == [] {
      assert k == |all|;
    } else {
      assert k != |all|;
    }
  }

  /**
   * The rows hold the items in order, every row has two items except that
   * the last may have one, and there are `ceil(n / 2)` rows.
   */
  lemma {:induction false} PairsShape<T>(xs: seq<T>)
    ensures Flatten(Pairs(xs)) == xs
    ensures |Pairs(xs)| == (|xs| + 1) / 2
    ensures forall i :: 0 <= i < |Pairs(xs)| - 1 ==> |Pairs(xs)[i]| == 2
    ensures Pairs(xs) != [] ==> 1 <= |Pairs(xs)[|Pairs(xs)| - 1]| <= 2
    decreases |xs|
  {
    if |xs| > 2 {
      PairsShape(xs[2..]);
      var rest := Pairs(xs[2..]);
      assert Pairs(xs) == [xs[..2]] + rest;
      assert Pairs(xs)[1..] == rest;
      assert xs == xs[..2] + xs[2..];
      forall i | 0 <= i < |Pairs(xs)| - 1 ensures |Pairs(xs)[i]| == 2 {
        if i > 0 {
          assert Pairs(xs)[i] == rest[i - 1];
        }
      }
    } else if xs != [] {
      assert Pairs(xs) == [xs];
      assert Flatten(Pairs(xs)) == xs + Flatten([]);
    }
  }

  /** One keyboard row per label, each label followed by `suffix`. */
  function LabelRows(labels: seq<string>, suffix: string): seq<seq<string>> {
    if labels == [] then [] else LabelRows(labels[..|labels| - 1], suffix) + [[labels[|labels| - 1] + suffix]]
  }

  /** A menu keyboard: one row per label, then the back button, then the home button. */
  function MenuKeyboard(labels: seq<string>, suffix: string, back: string, home: string): seq<seq<string>> {
    LabelRows(labels, suffix) + [[back], [home]]
  }

  lemma {:induction false} LabelRowsShape(labels: seq<string>, suffix: string)
    ensures |LabelRows(labels, suffix)| == |labels|
    ensures forall i :: 0 <= i < |labels| ==> LabelRows(labels, suffix)[i] == [labels[i] + suffix]
  {
    if labels != [] {
      LabelRowsShape(labels[..|labels| - 1], suffix);
    }
  }

  /** The menu has a row per label in order, and the back and home buttons below them. */
  lemma MenuKeyboardShape(labels: seq<string>, suffix: string, back: string, home: string)
    ensures var k := MenuKeyboard(labels, suffix, back, home);
      |k| == |labels| + 2 && k[|labels|] == [back] && k[|labels| + 1] == [home]
      && forall i :: 0 <= i < |labels| ==> k[i] == [labels[i] + suffix]
  {
    LabelRowsShape(labels, suffix);
  }

  /** The loop `for label in labels: keyboard.append([label + suffix])` followed by the back and home rows. */
  method BuildMenuKeyboard(labels: seq<string>, suffix: string, back: string, home: string)
    returns (keyboard: seq<seq<string>>)
    ensures keyboard == MenuKeyboard(labels, suffix, back, home)
  {
    keyboard := [];
    var i := 0;
    while i < |labels|
      invariant 0 <= i <= |labels|
      invariant keyboard == LabelRows(labels[..i], suffix)
    {
      assert labels[..i + 1][..i] == labels[..i];
      keyboard := keyboard + [[labels[i] + suffix]];
      i := i + 1;
    }
    assert labels[..i] == labels;
    keyboard := keyboard + [[back]] + [[home]];
  }
}
