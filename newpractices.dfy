/**
 * The repeating job that announces new practices (`check_new_practices_job`
 * in commands/system.py): it remembers the ids of the practices it has seen
 * and, when practices with new ids appear, sends every registered user one
 * message listing them with a keyboard of buttons that open them.
 */
module NewPracticesJob {
  import opened Wrappers
  import opened Strings
  import opened Texts
  import opened Catalog
  import opened Render
  import opened PracticesView

  /** The ids of the practices that have one. */
  function IdsOf(ps: seq<Practice>): (r: set<int>)
    ensures forall n :: n in r <==> exists i :: 0 <= i < |ps| && ps[i].id == Some(n)
  {
    set i | 0 <= i < |ps| && ps[i].id.Some? :: ps[i].id.value
  }

  /** The practices whose id is one of `ids`, in catalog order. */
  function Announced(ps: seq<Practice>, ids: set<int>): (r: seq<Practice>)
    ensures forall p :: p in r <==> p in ps && p.id.Some? && p.id.value in ids
  {
    if ps == [] then []
    else
      var init, last := ps[..|ps| - 1], ps[|ps| - 1];
      assert ps == init + [last];
      Announced(init, ids) + (if last.id.Some? && last.id.value in ids then [last] else [])
  }

  /** One entry of the announcement: number, bold name, then the description and a blank line. */
  function AnnouncementEntry(index: nat, p: Practice): string {
    NatToString(index) + ". <strong>" + p.name + "</strong>\n" + p.description + "\n\n"
  }

  /** The announcement text: the `new_practices` heading, then the numbered entries. */
  function AnnouncementText(t: Texts, news: seq<Practice>): string {
    t.practices.newPractices + ConcatNumbered(news, AnnouncementEntry)
  }

  /** The same message, with the same keyboard, to each user in turn. */
  function Sends(users: seq<int>, text: string, buttons: seq<seq<Button>>): (r: seq<Out>)
    ensures |r| == |users|
    ensures forall i :: 0 <= i < |users| ==> r[i] == Send(users[i], text, InlineKeys(buttons))
  {
    if users == [] then [] else Sends(users[..|users| - 1], text, buttons) + [Send(users[|users| - 1], text, InlineKeys(buttons))]
  }

  /** One more user gets the same message after the earlier ones. */
  lemma SendsStep(users: seq<int>, i: nat, text: string, buttons: seq<seq<Button>>)
    requires i < |users|
    ensures Sends(users[..i + 1], text, buttons) == Sends(users[..i], text, buttons) + [Send(users[i], text, InlineKeys(buttons))]
  {
    assert users[..i + 1][..i] == users[..i];
  }


  /** The ids remembered after a run and the messages the run sent. */
  datatype JobResult = JobResult(baseline: set<int>, out: seq<Out>)

  /**
   * One run of the job, with `last` the ids remembered so far and `users`
   * what `get_users` returned. A failed fetch keeps `last`; an empty `last`
   * is only filled in; otherwise the practices with ids not in `last` are
   * announced, and the current ids become the baseline.
   */
  function Run(t: Texts, c: Catalog, last: set<int>, users: seq<int>): JobResult {
    match Practices(c)
    case None => JobResult(last, [])
    case Some(ps) =>
      var current := IdsOf(ps);
      if last == {} then JobResult(current, [])
      else if current - last == {} then JobResult(current, [])
      else
        var news := Announced(ps, current - last);
        JobResult(current, Sends(users, AnnouncementText(t, news), PracticeButtons(news)))
  }

  /** A failed fetch changes nothing and sends nothing. */
  lemma FailedFetchKeepsBaseline(t: Texts, c: Catalog, last: set<int>, users: seq<int>)
    requires !c.online
    ensures Run(t, c, last, users) == JobResult(last, [])
  {
  }

  /** Every completed run replaces the baseline by the ids it fetched. */
  lemma BaselineIsCurrent(t: Texts, c: Catalog, last: set<int>, users: seq<int>)
    requires c.online
    ensures Run(t, c, last, users).baseline == IdsOf(c.practices)
  {
  }

  /** The first run (or any run after an empty fetch) announces nothing. */
  lemma FirstRunIsSilent(t: Texts, c: Catalog, users: seq<int>)
    ensures Run(t, c, {}, users).out == []
  {
  }

  /**
   * Something is sent exactly when the fetch succeeded, a baseline existed,
   * some fetched id is not in it, and there is a user; each message goes to
   * a user and lists exactly the practices with new ids.
   */
  lemma AnnouncesExactlyTheNew(t: Texts, c: Catalog, last: set<int>, users: seq<int>)
    ensures var r := Run(t, c, last, users);
      r.out != [] <==> c.online && last != {} && IdsOf(c.practices) - last != {} && users != []
    ensures var r := Run(t, c, last, users);
      forall i :: 0 <= i < |r.out| ==>
        var news := Announced(c.practices, IdsOf(c.practices) - last);
        r.out[i] == Send(users[i], AnnouncementText(t, news), InlineKeys(PracticeButtons(news)))
        && (forall p :: p in news <==> p in c.practices && p.id.Some? && p.id.value !in last)
  {
    var r := Run(t, c, last, users);
    if c.online && last != {} && IdsOf(c.practices) - last != {} {
      var news := Announced(c.practices, IdsOf(c.practices) - last);
      assert r.out == Sends(users, AnnouncementText(t, news), PracticeButtons(news));
      forall p ensures p in news <==> p in c.practices && p.id.Some? && p.id.value !in last {
        if p in c.practices && p.id.Some? {
          var i :| 0 <= i < |c.practices| && c.practices[i] == p;
          assert p.id.value in IdsOf(c.practices);
        }
      }
    }
  }

  /** Running the job twice over the same practices announces nothing the second time. */
  lemma NoRepeatedAnnouncement(t: Texts, c: Catalog, last: set<int>, users: seq<int>, users2: seq<int>)
    ensures var first := Run(t, c, last, users);
      Run(t, c, first.baseline, users2).out == []
  {
  }

  /** Baseline {1, 2, 3} and fetched ids {1, 3, 4}: only practice 4 is announced, and {1, 3, 4} is kept. */
  lemma ExampleAnnouncesFour(t: Texts, c: Catalog, users: seq<int>)
    requires c.online && IdsOf(c.practices) == {1, 3, 4}
    ensures Run(t, c, {1, 2, 3}, users).baseline == {1, 3, 4}
    ensures forall p :: p in Announced(c.practices, IdsOf(c.practices) - {1, 2, 3}) ==> p.id == Some(4)
  {
    assert IdsOf(c.practices) - {1, 2, 3} == {4};
  }

  lemma AnnouncementStep(head: string, ps: seq<Practice>, i: nat)
    requires i < |ps|
    ensures head + ConcatNumbered(ps[..i + 1], AnnouncementEntry)
         == (head + ConcatNumbered(ps[..i], AnnouncementEntry)) + AnnouncementEntry(i + 1, ps[i])
  {
    assert ps[..i + 1][..i] == ps[..i];
  }

  /**
   * The loop that builds the announcement: one entry per new practice is
   * appended to the message and one button to the current row, which moves
   * into the keyboard when it holds two buttons.
   */
  method BuildAnnouncement(t: Texts, news: seq<Practice>) returns (message: string, rows: seq<seq<Button>>)
    ensures message == AnnouncementText(t, news)
    ensures rows == PracticeButtons(news)
  {
    NumberedButtonsShape(news);
    ghost var all := NumberedButtons(news);
    message := t.practices.newPractices;
    rows := [];
    var row: seq<Button> := [];
    var i := 0;
    while i < |news|
      invariant 0 <= i <= |news|
      invariant message == t.practices.newPractices + ConcatNumbered(news[..i], AnnouncementEntry)
      invariant RowsSoFar(all, i, row, rows)
    {
      AnnouncementStep(t.practices.newPractices, news, i);
      message := message + AnnouncementEntry(i + 1, news[i]);
      RowsStep(all, i, row, rows);
      row := row + [PracticeButton(i + 1, news[i])];
      if |row| == 2 {
        rows := rows + [row];
        row := [];
      }
      i := i + 1;
    }
    assert news[..i] == news;
    RowsFinish(all, row, rows);
    if row != [] {
      rows := rows + [row];
    }
  }

  /** The module-global `last_practice_ids` of the job. */
  class PracticeWatcher {
    var lastIds: set<int>

    constructor ()
      ensures lastIds == {}
    {
      lastIds := {};
    }

    /** One run of the job; a failed send is only logged, so every user gets a `Send`. */
    method CheckNewPractices(t: Texts, c: Catalog, users: seq<int>) returns (out: seq<Out>)
      modifies this
      ensures JobResult(lastIds, out) == Run(t, c, old(lastIds), users)
    {
      out := [];
      var fetched := Practices(c);
      if fetched.None? {
        return;
      }
      var ps := fetched.value;
      var current := IdsOf(ps);
      if lastIds == {} {
        lastIds := current;
        return;
      }
      var newIds := current - lastIds;
      if newIds != {} {
        var news := Announced(ps, newIds);
        var message, rows := BuildAnnouncement(t, news);
        var i := 0;
        while i < |users|
          invariant 0 <= i <= |users|
          invariant out == Sends(users[..i], message, rows)
          modifies {}
        {
          SendsStep(users, i, message, rows);
          out := out + [Send(users[i], message, InlineKeys(rows))];
          i := i + 1;
        }
        assert users[..i] == users;
      }
      lastIds := current;
    }
  }
}
