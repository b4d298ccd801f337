/**
 * The alert messages of the notification service
 * (service/notification_service_impl.rs): the Telegram text, the rows of the
 * alert mail, the change column of the history table, the per-receiver mail
 * loop and the fan-out that sends both and never fails.
 *
 * The Telegram bot, the mail procedure and the HTML template are oracles;
 * the sends a `Notifier` makes are recorded in its fields.
 */
module NotificationService {
  import opened Wrappers
  import opened Decimal
  import opened Records
  import opened Text

  const TELEGRAM_HEADER: string := "🚨 [Index Count Alert] 🚨\n\n"
  const TELEGRAM_FOOTER: string := "⚠️ Please check the index status immediately!"
  const PINS: string := "📌📌📌📌📌"

  /** The line that opens the part of one evaluated index. */
  function Marker(indexName: string): string {
    PINS + " [" + indexName + "] " + PINS + "\n"
  }

  /** The block of one alert entry. */
  function EntryBlock(a: AlertIndex): string {
    "📊 Index: " + a.indexName + "\n💾 Count: " + NatToString(a.cnt) + "\n🕐 Time: " + a.timestamp + "\n\n"
  }

  /** The part of one result: its marker, then a block per alert entry when there are any. */
  function ResultText(r: LogIndexResult): string {
    Marker(r.indexName) + (if r.alertIndexFormat.Some? then ConcatMap(r.alertIndexFormat.value, EntryBlock) else "")
  }

  /** The Telegram alert for a list of results. */
  function TelegramMessage(results: seq<LogIndexResult>): (m: string)
    ensures |m| >= |TELEGRAM_HEADER| + |TELEGRAM_FOOTER|
  {
    TELEGRAM_HEADER + ConcatMap(results, ResultText) + TELEGRAM_FOOTER
  }

  /** The message always opens with the alert header and closes with the call to check. */
  lemma TelegramFrame(results: seq<LogIndexResult>)
    ensures |TelegramMessage(results)| >= |TELEGRAM_HEADER| + |TELEGRAM_FOOTER|
    ensures TelegramMessage(results)[..|TELEGRAM_HEADER|] == TELEGRAM_HEADER
    ensures TelegramMessage(results)[|TelegramMessage(results)| - |TELEGRAM_FOOTER|..] == TELEGRAM_FOOTER
  {
    var m, body := TelegramMessage(results), ConcatMap(results, ResultText);
    var front := TELEGRAM_HEADER + body;
    assert m == front + TELEGRAM_FOOTER;
    assert front[..|TELEGRAM_HEADER|] == TELEGRAM_HEADER;
    assert m[..|TELEGRAM_HEADER|] == front[..|TELEGRAM_HEADER|];
    assert m[|front|..] == TELEGRAM_FOOTER;
  }

  /** A result without alert entries contributes its marker only. */
  lemma NoEntriesOnlyMarker(r: LogIndexResult)
    requires r.alertIndexFormat.None? || r.alertIndexFormat == Some([])
    ensures ResultText(r) == Marker(r.indexName)
  {
  }

  /** The marker names its index: different names give different markers. */
  lemma MarkerInjective(a: string, b: string)
    requires Marker(a) == Marker(b)
    ensures a == b
  {
    var pre := PINS + " [";
    assert Marker(a) == pre + a + ("] " + PINS + "\n");
    assert Marker(b) == pre + b + ("] " + PINS + "\n");
    assert |a| == |b|;
    forall k | 0 <= k < |a| ensures a[k] == b[k] {
      assert a[k] == Marker(a)[|pre| + k];
      assert b[k] == Marker(b)[|pre| + k];
    }
  }

  /** The inner loop of `send_telegram_index_alert`: a block per alert entry. */
  method AppendEntryBlocks(text: string, entries: seq<AlertIndex>) returns (msg: string)
    ensures msg == text + ConcatMap(entries, EntryBlock)
  {
    msg := text;
    for j := 0 to |entries|
      invariant msg + ConcatMap(entries[j..], EntryBlock) == text + ConcatMap(entries, EntryBlock)
    {
      assert entries[j..][1..] == entries[j + 1..];
      msg := msg + EntryBlock(entries[j]);
    }
    assert entries[|entries|..] == [];
  }

  /** One pass of the outer loop of `send_telegram_index_alert`: a marker, then the blocks. */
  method AppendResult(text: string, r: LogIndexResult) returns (msg: string)
    ensures msg == text + ResultText(r)
  {
    msg := text + Marker(r.indexName);
    if r.alertIndexFormat.Some? {
      msg := AppendEntryBlocks(msg, r.alertIndexFormat.value);
    }
  }

  /** The outer loop of `send_telegram_index_alert`, over the results in order. */
  method AppendResults(text: string, results: seq<LogIndexResult>) returns (msg: string)
    ensures msg == text + ConcatMap(results, ResultText)
  {
    msg := text;
    for i := 0 to |results|
      invariant msg + ConcatMap(results[i..], ResultText) == text + ConcatMap(results, ResultText)
    {
      assert results[i..][1..] == results[i + 1..];
      msg := AppendResult(msg, results[i]);
    }
    assert results[|results|..] == [];
  }

  /** The message of `send_telegram_index_alert`. */
  method BuildTelegramMessage(results: seq<LogIndexResult>) returns (msg: string)
    ensures msg == TelegramMessage(results)
  {
    msg := AppendResults(TELEGRAM_HEADER, results);
    msg := msg + TELEGRAM_FOOTER;
  }

  /** One row of the example history table. */
  datatype Sample = Sample(time: string, count: int, change: int)

  /** The fixed example history every history table shows. */
  const SAMPLE_HISTORY: seq<Sample> := [
    Sample("2025-01-20 10:00:00", 100000, 0),
    Sample("2025-01-20 10:05:00", 105000, 5000),
    Sample("2025-01-20 10:10:00", 103000, -2000),
    Sample("2025-01-20 10:15:00", 120000, 17000)
  ]

  /** The CSS class of a change cell. */
  function ChangeClass(change: int): (c: string)
    ensures c == "" <==> change == 0
  {
    if change > 0 then "count-increase" else if change < 0 then "count-decrease" else ""
  }

  /** The text of a change cell. */
  function ChangeText(change: int): (t: string)
    ensures |t| >= 1 && (t == "0" <==> change == 0)
  {
    if change > 0 then "+" + NatToString(change) else if change < 0 then IntToString(change) else "0"
  }

  /** Increases are marked with a `+`, decreases carry their `-`, and no change is "0". */
  lemma ChangeTextMeaning(change: int)
    ensures change > 0 ==> ChangeText(change) == "+" + NatToString(change)
    ensures change < 0 ==> ChangeText(change) == "-" + NatToString(-change)
    ensures change == 0 ==> ChangeText(change) == "0"
    ensures ChangeText(change)[0] == '+' <==> change > 0
    ensures ChangeText(change)[0] == '-' <==> change < 0
  {
  }

  /** The change text reads back as the change. */
  lemma ChangeTextRoundTrip(change: int)
    ensures var t := ChangeText(change);
      && |t| >= 1
      && ((t[0] == '+' || t[0] == '-') ==> |t| >= 2 && AllDigits(t[1..]))
      && (t[0] != '+' && t[0] != '-' ==> AllDigits(t))
      && ParseSigned(t) == change
  {
    var t := ChangeText(change);
    if change > 0 {
      var d := NatToString(change);
      assert t == "+" + d && t[1..] == d;
      ParseNatToString(change);
      assert ParseSigned(t) == ParseNat(d);
    } else if change < 0 {
      var d := NatToString(-change);
      assert t == "-" + d && t[1..] == d;
      ParseNatToString(-change);
      assert ParseSigned(t) == 0 - ParseNat(d);
    } else {
      assert t == "0";
      assert NatToString(0) == "0";
      ParseNatToString(0);
    }
  }

  /** The class agrees with the sign: increase, decrease, or none. */
  lemma ChangeClassIff(change: int)
    ensures ChangeClass(change) == "count-increase" <==> change > 0
    ensures ChangeClass(change) == "count-decrease" <==> change < 0
    ensures ChangeClass(change) == "" <==> change == 0
  {
  }

  function HistoryRow(s: Sample): string {
    "<tr><td>" + s.time + "</td><td>" + IntToString(s.count) + "</td><td class=\"" + ChangeClass(s.change)
    + "\">" + ChangeText(s.change) + "</td></tr>"
  }

  /** The table head, with the column titles. */
  const HISTORY_HEAD: string :=
    "\n        <table class=\"history-table\">\n            <tr>\n                <th>Time</th>\n"
    + "                <th>Count</th>\n                <th>Change</th>\n            </tr>\n        "

  /** The history table of an alert row, from the samples it shows. */
  function HistoryTable(samples: seq<Sample>): string {
    HISTORY_HEAD + ConcatMap(samples, HistoryRow) + "</table>"
  }

  /** The sample loop of `generate_history_table_html`. */
  method AppendHistoryRows(head: string, samples: seq<Sample>) returns (html: string)
    ensures html == head + ConcatMap(samples, HistoryRow)
  {
    html := head;
    for i := 0 to |samples|
      invariant html + ConcatMap(samples[i..], HistoryRow) == head + ConcatMap(samples, HistoryRow)
    {
      assert samples[i..][1..] == samples[i + 1..];
      AppendAssoc(html, HistoryRow(samples[i]), ConcatMap(samples[i + 1..], HistoryRow));
      html := html + HistoryRow(samples[i]);
    }
    assert samples[|samples|..] == [];
  }

  /**
   * `generate_history_table_html`: the table of the example history
   * `samples` (`SAMPLE_HISTORY` in the notifier); the index name it is
   * given plays no part.
   */
  method GenerateHistoryTableHtml(samples: seq<Sample>) returns (html: string)
    ensures html == HistoryTable(samples)
  {
    html := AppendHistoryRows(HISTORY_HEAD, samples);
    html := html + "</table>";
  }

  /** The alert entries of all results, in order; a result without entries adds none. */
  function Entries(results: seq<LogIndexResult>): (es: seq<AlertIndex>)
    ensures |es| == EntryCount(results)
    decreases |results|
  {
    if results == [] then []
    else
      (if results[0].alertIndexFormat.Some? then results[0].alertIndexFormat.value else [])
      + Entries(results[1..])
  }

  /** How many alert entries the results carry. */
  function EntryCount(results: seq<LogIndexResult>): nat {
    if results == [] then 0
    else
      (if results[0].alertIndexFormat.Some? then |results[0].alertIndexFormat.value| else 0)
      + EntryCount(results[1..])
  }

  lemma {:induction false} EntriesAppend(a: seq<LogIndexResult>, b: seq<LogIndexResult>)
    ensures Entries(a + b) == Entries(a) + Entries(b)
    decreases |a|
  {
    if a == [] {
      assert a + b == b;
    } else {
      EntriesAppend(a[1..], b);
      assert (a + b)[0] == a[0];
      assert (a + b)[1..] == a[1..] + b;
      var h := if a[0].alertIndexFormat.Some? then a[0].alertIndexFormat.value else [];
      assert Entries(a + b) == h + (Entries(a[1..]) + Entries(b));
      assert h + (Entries(a[1..]) + Entries(b)) == (h + Entries(a[1..])) + Entries(b);
    }
  }

  /** The row of one alert entry, with its history table in the last cell. */
  function AlertRow(historyTable: string, a: AlertIndex): string {
    "<tr>\n                            <td class=\"index-name\">" + a.indexName
    + "</td>\n                            <td class=\"count-change\">" + NatToString(a.cnt)
    + "</td>\n                            <td class=\"timestamp\">" + a.timestamp
    + "</td>\n                            <td>" + historyTable + "</td>\n                        </tr>"
  }

  /** One pass of the inner loop of `generate_alert_rows`. */
  method AppendAlertRow(text: string, historyTable: string, entry: AlertIndex) returns (rows: string)
    ensures rows == text + AlertRow(historyTable, entry)
  {
    rows := text + AlertRow(historyTable, entry);
  }

  /** The inner loop of `generate_alert_rows`: a row per entry. */
  method AppendAlertRows(text: string, entries: seq<AlertIndex>, historyTable: string) returns (rows: string)
    ensures rows == text + ConcatMapWith(historyTable, entries, AlertRow)
  {
    rows := text;
    for j := 0 to |entries|
      invariant rows + ConcatMapWith(historyTable, entries[j..], AlertRow) == text + ConcatMapWith(historyTable, entries, AlertRow)
    {
      assert entries[j..][1..] == entries[j + 1..];
      AppendAssoc(rows, AlertRow(historyTable, entries[j]), ConcatMapWith(historyTable, entries[j + 1..], AlertRow));
      rows := AppendAlertRow(rows, historyTable, entries[j]);
    }
    assert entries[|entries|..] == [];
  }

  /**
   * `generate_alert_rows`: one row per alert entry across all results, each
   * with the history table in its last cell.
   */
  method GenerateAlertRows(results: seq<LogIndexResult>, historyTable: string) returns (rows: string)
    ensures rows == ConcatMapWith(historyTable, Entries(results), AlertRow)
  {
    rows := "";
    for i := 0 to |results|
      invariant rows + ConcatMapWith(historyTable, Entries(results[i..]), AlertRow)
        == ConcatMapWith(historyTable, Entries(results), AlertRow)
    {
      var entries := EntriesStep(results, i);
      var rest := Entries(results[i + 1..]);
      ConcatMapWithAppend(historyTable, entries, rest, AlertRow);
      AppendAssoc(rows, ConcatMapWith(historyTable, entries, AlertRow), ConcatMapWith(historyTable, rest, AlertRow));
      if results[i].alertIndexFormat.Some? {
        rows := AppendAlertRows(rows, results[i].alertIndexFormat.value, historyTable);
      } else {
        assert ConcatMapWith(historyTable, entries, AlertRow) == "";
        assert rows + "" == rows;
      }
    }
    assert results[|results|..] == [];
  }

  /** The entries from result `i` on: those of result `i`, if any, then the ones after it. */
  lemma EntriesStep(results: seq<LogIndexResult>, i: nat) returns (entries: seq<AlertIndex>)
    requires i < |results|
    ensures entries == if results[i].alertIndexFormat.Some? then results[i].alertIndexFormat.value else []
    ensures Entries(results[i..]) == entries + Entries(results[i + 1..])
  {
    entries := if results[i].alertIndexFormat.Some? then results[i].alertIndexFormat.value else [];
    assert results[i..][0] == results[i] && results[i..][1..] == results[i + 1..];
  }

  /** The alert rows of the mail, with the example history's table in every row. */
  function MailRows(results: seq<LogIndexResult>, samples: seq<Sample>): string {
    ConcatMapWith(HistoryTable(samples), Entries(results), AlertRow)
  }

  const ALERT_SUBJECT: string := "[Index Count Alert] Index Document Count Change Detected"

  /** One mail handed to the mail procedure, and whether it reported success. */
  datatype Mail = Mail(receiver: string, subject: string, html: string, delivered: bool)

  /** The mails of one alert: one per receiver, in order, each tried whatever the others did. */
  function MailsTo(receivers: seq<string>, html: string, mailer: (string, string, string) -> Result<(), string>)
    : (ms: seq<Mail>)
    ensures |ms| == |receivers|
    ensures forall k :: 0 <= k < |receivers| ==>
      (ms[k].receiver == receivers[k] && ms[k].subject == ALERT_SUBJECT
       && ms[k].html == html && (ms[k].delivered <==> mailer(receivers[k], ALERT_SUBJECT, html).Ok?))
  {
    seq(|receivers|, k requires 0 <= k < |receivers| =>
      Mail(receivers[k], ALERT_SUBJECT, html, mailer(receivers[k], ALERT_SUBJECT, html).Ok?))
  }

  /** The outside services an alert goes through. */
  datatype AlertChannels = AlertChannels(
    /** `bot_send` of the Telegram repository. */
    botSend: string -> Result<(), string>,
    /** `generate_index_alert_html`'s template read and substitution, given the alert rows. */
    renderAlertHtml: string -> Result<string, string>,
    /** `execute_imailer_procedure(receiver, subject, html)`. */
    mailer: (string, string, string) -> Result<(), string>)

  /** The notification service with its receiver list; the sends it makes are recorded. */
  class Notifier {
    const receivers: seq<string>
    /** The example history every history table shows. */
    const exampleHistory: seq<Sample>
    /** The Telegram messages handed to the bot. */
    var telegramSent: seq<string>
    /** The mails handed to the mail procedure. */
    var mailsSent: seq<Mail>

    constructor (receivers: seq<string>)
      ensures this.receivers == receivers && exampleHistory == SAMPLE_HISTORY
      ensures telegramSent == [] && mailsSent == []
    {
      this.receivers := receivers;
      exampleHistory := SAMPLE_HISTORY;
      telegramSent := [];
      mailsSent := [];
    }

    /** `send_telegram_index_alert`. */
    method SendTelegramIndexAlert(results: seq<LogIndexResult>, ch: AlertChannels) returns (r: Result<(), string>)
      modifies this
      ensures telegramSent == old(telegramSent) + [TelegramMessage(results)]
      ensures mailsSent == old(mailsSent)
      ensures r == ch.botSend(TelegramMessage(results))
    {
      var msg := BuildTelegramMessage(results);
      telegramSent := telegramSent + [msg];
      r := ch.botSend(msg);
    }

    /** `send_email_index_alert`: a failed mail is logged and the loop goes on. */
    method SendEmailIndexAlert(results: seq<LogIndexResult>, ch: AlertChannels) returns (r: Result<(), string>)
      modifies this
      ensures telegramSent == old(telegramSent)
      ensures var html := ch.renderAlertHtml(MailRows(results, exampleHistory));
        && (html.Err? ==> r == Err(html.error) && mailsSent == old(mailsSent))
        && (html.Ok? ==> r == Ok(()) && mailsSent == old(mailsSent) + MailsTo(receivers, html.value, ch.mailer))
    {
      var historyTable := GenerateHistoryTableHtml(exampleHistory);
      var rows := GenerateAlertRows(results, historyTable);
      var html := ch.renderAlertHtml(rows);
      if html.Err? {
        return Err(html.error);
      }
      MailReceivers(html.value, ch);
      return Ok(());
    }

    /** The receiver loop of `send_email_index_alert`: every receiver is tried, in order. */
    method MailReceivers(html: string, ch: AlertChannels)
      modifies this
      ensures telegramSent == old(telegramSent)
      ensures mailsSent == old(mailsSent) + MailsTo(receivers, html, ch.mailer)
    {
      ghost var before := mailsSent;
      for k := 0 to |receivers|
        invariant mailsSent == before + MailsTo(receivers[..k], html, ch.mailer)
        invariant telegramSent == old(telegramSent)
      {
        var sent := ch.mailer(receivers[k], ALERT_SUBJECT, html);
        mailsSent := mailsSent + [Mail(receivers[k], ALERT_SUBJECT, html, sent.Ok?)];
        assert MailsTo(receivers[..k + 1], html, ch.mailer)
          == MailsTo(receivers[..k], html, ch.mailer) + [Mail(receivers[k], ALERT_SUBJECT, html, sent.Ok?)];
      }
      assert receivers[..|receivers|] == receivers;
    }

    /**
     * `send_index_alert_message`: Telegram and mail are both tried, their
     * errors only logged, and the call succeeds.
     */
    method SendIndexAlertMessage(results: seq<LogIndexResult>, ch: AlertChannels) returns (r: Result<(), string>)
      modifies this
      ensures r == Ok(())
      ensures telegramSent == old(telegramSent) + [TelegramMessage(results)]
      ensures var html := ch.renderAlertHtml(MailRows(results, exampleHistory));
        mailsSent == old(mailsSent) + (if html.Ok? then MailsTo(receivers, html.value, ch.mailer) else [])
    {
      var telegram := SendTelegramIndexAlert(results, ch);
      var mail := SendEmailIndexAlert(results, ch);
      return Ok(());
    }
  }
}
