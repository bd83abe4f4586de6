/**
 * The planner's exchanges with the outside (App.tsx): the push of one job to
 * the spreadsheet webhook (its guard and its payload), the outcome of a pull
 * of the whole list, and the WhatsApp deep link of a status report.
 *
 * The network itself is not modelled: a push or a pull is described by the
 * request it would send and by what the completed call does to the job list.
 */
module Sync {
  import opened Wrappers
  import opened Types
  import opened Text
  import opened TaskRepo

  /** The `action` discriminator of a push. */
  datatype Action = Add | Update | Test

  function ActionName(a: Action): string
  {
    match a
    case Add => "add"
    case Update => "update"
    case Test => "test"
  }

  /**
   * The untyped `task: any` a push receives, one string per property it
   * reads; "" stands for a missing property (both are falsy to `||`).
   */
  datatype LooseTask = LooseTask(
    url: string,
    id: string,
    montador: string,
    clientName: string,
    cliente: string,
    material: string,
    status: string,
    estado: string,
    description: string,
    descripcion: string,
    fecha: string,
    pedido: string,
    color: string)

  /** A stored job as a push sees it: its own fields, no `url` and no Spanish aliases. */
  function Loose(t: Task): (l: LooseTask)
    ensures l.url == "" && l.cliente == "" && l.estado == "" && l.descripcion == ""
    ensures l.id == t.id && l.montador == t.montador && l.clientName == t.clientName
    ensures l.material == t.material && l.status == StatusLabel(t.status) && l.status != ""
    ensures l.description == t.description && l.fecha == t.fecha
    ensures l.pedido == t.pedido && l.color == t.color
  {
    LooseTask("", t.id, t.montador, t.clientName, "", t.material, StatusLabel(t.status),
              "", t.description, "", t.fecha, t.pedido, t.color)
  }

  /** The `{ url }` object the settings dialog's connection test pushes (App.tsx:235). */
  function Probe(url: string): (p: LooseTask)
    ensures p.url == url
    ensures p.(url := "") == LooseTask("", "", "", "", "", "", "", "", "", "", "", "", "")
  {
    LooseTask(url, "", "", "", "", "", "", "", "", "", "", "", "")
  }

  /** The JSON body of a push (App.tsx:95-106). */
  datatype Payload = Payload(
    action: string,
    id: string,
    montador: string,
    cliente: string,
    material: string,
    estado: string,
    descripcion: string,
    fecha: string,
    pedido: string,
    color: string)

  /** A request the push sends: where to, and what. */
  datatype Request = Request(url: string, payload: Payload)

  /** The marker a webhook URL must contain to be accepted (App.tsx:93). */
  const ExecMarker: string := "/exec"

  /** The URL a push would use (App.tsx:92). */
  function ChosenUrl(settings: Settings, task: LooseTask, action: Action): (url: string)
    ensures action != Test ==> url == settings.googleSheetWebhookUrl
    ensures action == Test && task.url != "" ==> url == task.url
    ensures action == Test && task.url == "" ==> url == settings.googleSheetWebhookUrl
  {
    if action == Test then Or(task.url, settings.googleSheetWebhookUrl)
    else settings.googleSheetWebhookUrl
  }

  /**
   * The guard of `syncToGoogleSheet` (App.tsx:90-93): the URL the push goes
   * to, or None when it refuses. A test push uses the URL it is given, else
   * the saved one, and ignores the sync switch.
   */
  function PushTarget(settings: Settings, task: LooseTask, action: Action): (r: Option<string>)
    ensures action != Test && !settings.googleSheetEnabled ==> r == None
    ensures r.Some? ==> r.value != "" && Contains(r.value, ExecMarker)
    ensures r.Some? && action != Test ==> r.value == settings.googleSheetWebhookUrl
    ensures r.Some? && action == Test ==>
      r.value == (if task.url != "" then task.url else settings.googleSheetWebhookUrl)
    ensures ((action == Test || settings.googleSheetEnabled) &&
             Contains(ChosenUrl(settings, task, action), ExecMarker)) ==> r.Some?
  {
    if !settings.googleSheetEnabled && action != Test then None
    else
      var url := ChosenUrl(settings, task, action);
      if url == "" || !Contains(url, ExecMarker) then None
      else Some(url)
  }

  /**
   * The payload with its fallbacks (App.tsx:95-106). `clock` is the decimal
   * `Date.now()` and `today` the date part of the current ISO timestamp.
   */
  function BuildPayload(task: LooseTask, action: Action, clock: string, today: string): (p: Payload)
    ensures p.action == ActionName(action)
    ensures p.id != "" && p.montador != "" && p.cliente != ""
    ensures p.material != "" && p.estado != "" && p.descripcion != ""
    ensures p.cliente in {task.clientName, task.cliente, "PRUEBA"}
    ensures p.estado in {task.status, task.estado, "PENDIENTE"}
    ensures task.clientName != "" ==> p.cliente == task.clientName
    ensures task.status != "" ==> p.estado == task.status
    ensures p.pedido == task.pedido && p.color == task.color
    ensures task.id != "" ==> p.id == task.id
    ensures task.id == "" ==> p.id == "TEST-" + clock
    ensures task.montador != "" ==> p.montador == task.montador
    ensures task.montador == "" ==> p.montador == "SISTEMA"
    ensures task.clientName == "" && task.cliente != "" ==> p.cliente == task.cliente
    ensures task.clientName == "" && task.cliente == "" ==> p.cliente == "PRUEBA"
    ensures task.material != "" ==> p.material == task.material
    ensures task.material == "" ==> p.material == "-"
    ensures task.status == "" && task.estado != "" ==> p.estado == task.estado
    ensures task.status == "" && task.estado == "" ==> p.estado == "PENDIENTE"
    ensures task.description != "" ==> p.descripcion == task.description
    ensures task.description == "" && task.descripcion != "" ==> p.descripcion == task.descripcion
    ensures task.description == "" && task.descripcion == "" ==> p.descripcion == "Prueba"
    ensures task.fecha != "" ==> p.fecha == task.fecha
    ensures task.fecha == "" ==> p.fecha == today
  {
    Payload(
      ActionName(action),
      Or(task.id, "TEST-" + clock),
      Or(task.montador, "SISTEMA"),
      Or(task.clientName, Or(task.cliente, "PRUEBA")),
      Or(task.material, "-"),
      Or(task.status, Or(task.estado, "PENDIENTE")),
      Or(task.description, Or(task.descripcion, "Prueba")),
      Or(task.fecha, today),
      Or(task.pedido, ""),
      Or(task.color, ""))
  }

  /** The request a push sends, if its guard lets it through. */
  function PushRequest(settings: Settings, task: LooseTask, action: Action, clock: string, today: string): (r: Option<Request>)
    ensures r.Some? <==> PushTarget(settings, task, action).Some?
    ensures r.Some? ==> r.value.url == PushTarget(settings, task, action).value
    ensures r.Some? ==> r.value.payload == BuildPayload(task, action, clock, today)
  {
    match PushTarget(settings, task, action)
    case None => None
    case Some(url) => Some(Request(url, BuildPayload(task, action, clock, today)))
  }

  /**
   * The job list after a completed push (App.tsx:108-124): only a push that
   * was sent and did not fail in transport, and was not a test, marks the
   * pushed id synced.
   */
  function AfterPush(ts: seq<Task>, settings: Settings, task: LooseTask, action: Action, transportOk: bool): (r: seq<Task>)
    ensures PushTarget(settings, task, action).None? ==> r == ts
    ensures !transportOk || action == Test ==> r == ts
    ensures PushTarget(settings, task, action).Some? && transportOk && action != Test ==>
      r == MarkSynced(ts, task.id)
  {
    if PushTarget(settings, task, action).Some? && transportOk && action != Test
    then MarkSynced(ts, task.id) else ts
  }

  // ---------------------------------------------------------------------
  // Properties of the push

  /** The sync switch off or an empty URL: nothing is sent. */
  lemma RefusedPushes(settings: Settings, task: LooseTask, action: Action)
    ensures !settings.googleSheetEnabled && action != Test ==> PushTarget(settings, task, action) == None
    ensures action != Test && settings.googleSheetWebhookUrl == "" ==> PushTarget(settings, task, action) == None
    ensures action == Test && task.url == "" && settings.googleSheetWebhookUrl == "" ==>
      PushTarget(settings, task, action) == None
  {
  }

  /** A URL without the marker is refused, whatever the switch says. */
  lemma RefusedWithoutMarker(settings: Settings, task: LooseTask, action: Action)
    requires !Contains(ChosenUrl(settings, task, action), ExecMarker)
    ensures PushTarget(settings, task, action) == None
  {
  }

  /** The connection test of a URL with the marker goes to that URL even with sync switched off. */
  lemma TestUsesGivenUrl(settings: Settings, url: string)
    requires Contains(url, ExecMarker)
    ensures PushTarget(settings, Probe(url), Test) == Some(url)
  {
  }

  /** The payload of a connection test is the fixed test record. */
  lemma ProbePayload(url: string, clock: string, today: string)
    ensures BuildPayload(Probe(url), Test, clock, today) ==
      Payload("test", "TEST-" + clock, "SISTEMA", "PRUEBA", "-", "PENDIENTE", "Prueba", today, "", "")
  {
  }

  /** A job with a client name pushes its own fields; its status goes out as the enum's string. */
  lemma JobPayload(t: Task, action: Action, clock: string, today: string)
    requires t.id != "" && t.clientName != ""
    ensures BuildPayload(Loose(t), action, clock, today).id == t.id
    ensures BuildPayload(Loose(t), action, clock, today).cliente == t.clientName
    ensures BuildPayload(Loose(t), action, clock, today).estado == StatusLabel(t.status)
    ensures BuildPayload(Loose(t), action, clock, today).pedido == t.pedido
    ensures BuildPayload(Loose(t), action, clock, today).color == t.color
  {
    StatusLabelInjective(t.status, t.status);
  }

  /** A test push never touches the job list, whether or not it was sent. */
  lemma TestLeavesTasks(ts: seq<Task>, settings: Settings, task: LooseTask, transportOk: bool)
    ensures AfterPush(ts, settings, task, Test, transportOk) == ts
  {
  }

  // ---------------------------------------------------------------------
  // Pull

  /**
   * What `response.json()` produced: a JSON array (its elements spread into
   * jobs), some other value, or a failure of the fetch or of the parse.
   */
  datatype PullResponse = Items(items: seq<Task>) | NotArray | Failed

  /** The request of a pull (App.tsx:64-73): none without a webhook URL. */
  function PullUrl(settings: Settings): (r: Option<string>)
    ensures r.None? <==> settings.googleSheetWebhookUrl == ""
    ensures r.Some? ==> r.value == settings.googleSheetWebhookUrl + "?action=read"
    ensures r.Some? ==> (|r.value| > |settings.googleSheetWebhookUrl| &&
      r.value[..|settings.googleSheetWebhookUrl|] == settings.googleSheetWebhookUrl)
  {
    if settings.googleSheetWebhookUrl == "" then None
    else Some(settings.googleSheetWebhookUrl + "?action=read")
  }

  /** The job list after a completed pull (App.tsx:63-87). */
  function AfterPull(ts: seq<Task>, settings: Settings, response: PullResponse): (r: seq<Task>)
    ensures settings.googleSheetWebhookUrl == "" ==> r == ts
    ensures !response.Items? ==> r == ts
    ensures settings.googleSheetWebhookUrl != "" && response.Items? ==>
      |r| == |response.items| &&
      forall i :: 0 <= i < |r| ==>
        r[i].syncedToSheet && r[i].(syncedToSheet := response.items[i].syncedToSheet) == response.items[i]
  {
    if settings.googleSheetWebhookUrl == "" then ts
    else match response
      case Items(items) => MarkAllSynced(items)
      case _ => ts
  }

  /** A pull replaces the list wholesale: what was there before does not matter. */
  lemma PullDiscardsLocal(a: seq<Task>, b: seq<Task>, settings: Settings, items: seq<Task>)
    requires settings.googleSheetWebhookUrl != ""
    ensures AfterPull(a, settings, Items(items)) == AfterPull(b, settings, Items(items))
  {
  }

  /** After a successful pull no status changes: each tile counts what the sheet holds. */
  lemma {:induction false} PullKeepsStatuses(items: seq<Task>, s: TaskStatus)
    ensures View(MarkAllSynced(items), Only(s)) == MarkAllSynced(View(items, Only(s)))
  {
    if items != [] {
      var rest := items[1..];
      assert items == [items[0]] + rest;
      var m := MarkAllSynced(items);
      assert m == [m[0]] + m[1..] && m[1..] == MarkAllSynced(rest);
      Seqs.FilterAppend([m[0]], m[1..], HasStatus(s));
      Seqs.FilterAppend([items[0]], rest, HasStatus(s));
      PullKeepsStatuses(rest, s);
      MarkAllSyncedAppend(View([items[0]], Only(s)), View(rest, Only(s)));
      if items[0].status == s {
        assert View([items[0]], Only(s)) == [items[0]];
        assert View([m[0]], Only(s)) == [m[0]];
      } else {
        assert View([items[0]], Only(s)) == [];
        assert View([m[0]], Only(s)) == [];
      }
    }
  }

  /** Marking synced works job by job, so it distributes over concatenation. */
  lemma MarkAllSyncedAppend(a: seq<Task>, b: seq<Task>)
    ensures MarkAllSynced(a + b) == MarkAllSynced(a) + MarkAllSynced(b)
  {
    var ab := a + b;
    var l := Seqs.Map(ab, Synced);
    var ma, mb := Seqs.Map(a, Synced), Seqs.Map(b, Synced);
    var r := ma + mb;
    assert |l| == |r|;
    forall i | 0 <= i < |l| ensures l[i] == r[i] {
      if i < |a| {
        assert ab[i] == a[i] && r[i] == ma[i];
      } else {
        assert ab[i] == b[i - |a|] && r[i] == mb[i - |a|];
      }
    }
    assert l == r;
  }

  // ---------------------------------------------------------------------
  // WhatsApp report

  /** The line break of the report, already URL-encoded as the code writes it. */
  const Br: string := "%0A"

  /** The heading of the report; the emoji are U+2692 U+FE0F (hammer and pick). */
  const Heading: string := "*COMMAGRA - REPORTE TALLER* \U{2692}\U{FE0F}" + Br + Br

  /** The status line, upper-cased, with U+1F6A8 (police light). */
  function EstadoLine(s: TaskStatus): string
  {
    "*Estado:* " + ToUpper(StatusLabel(s)) + " \U{1F6A8}" + Br
  }

  function ClienteLine(t: Task): string
  {
    "*Cliente:* " + t.clientName + Br
  }

  function MaterialLine(t: Task): string
  {
    "*Material:* " + t.material + " (" + t.color + ")" + Br
  }

  function OperarioLine(t: Task): string
  {
    "*Operario:* " + t.montador + Br
  }

  /** The order line: a job without an order number reads "S/N". */
  function PedidoLine(t: Task): string
  {
    "*Pedido:* " + Or(t.pedido, "S/N") + Br + Br
  }

  const Footer: string := "_Mensaje enviado desde la App Interna Commagra_"

  /** The report text of `sendWhatsAppMessage` (App.tsx:49-55). */
  function Message(t: Task, s: TaskStatus): (m: string)
    ensures |m| >= |Heading| + |Footer|
    ensures m[..|Heading|] == Heading
    ensures m[|m| - |Footer|..] == Footer
  {
    Heading + EstadoLine(s) + ClienteLine(t) + MaterialLine(t) + OperarioLine(t) + PedidoLine(t) + Footer
  }

  /** The link `sendWhatsAppMessage` opens (App.tsx:46-59), or None with notifications off. */
  function WhatsAppLink(settings: Settings, t: Task, s: TaskStatus): (r: Option<string>)
    ensures r.None? <==> !settings.notificationsEnabled
    ensures r.Some? ==> r.value == "https://wa.me/" + DigitsOnly(settings.whatsappNumber) + "?text=" + Message(t, s)
  {
    if !settings.notificationsEnabled then None
    else Some("https://wa.me/" + DigitsOnly(settings.whatsappNumber) + "?text=" + Message(t, s))
  }

  /** The report holds the status line, the client line and the order line of the job. */
  lemma MessageMentions(t: Task, s: TaskStatus)
    ensures Contains(Message(t, s), EstadoLine(s))
    ensures Contains(Message(t, s), ClienteLine(t))
    ensures Contains(Message(t, s), PedidoLine(t))
  {
    var h, e, c, m, o, p, f := Heading, EstadoLine(s), ClienteLine(t), MaterialLine(t), OperarioLine(t), PedidoLine(t), Footer;
    ContainsEnd(h, e);
    ContainsExtend(h + e, c, e);
    ContainsExtend(h + e + c, m, e);
    ContainsExtend(h + e + c + m, o, e);
    ContainsExtend(h + e + c + m + o, p, e);
    ContainsExtend(h + e + c + m + o + p, f, e);
    ContainsEnd(h + e, c);
    ContainsExtend(h + e + c, m, c);
    ContainsExtend(h + e + c + m, o, c);
    ContainsExtend(h + e + c + m + o, p, c);
    ContainsExtend(h + e + c + m + o + p, f, c);
    ContainsEnd(h + e + c + m + o, p);
    ContainsExtend(h + e + c + m + o + p, f, p);
  }

  /** The order line falls back to "S/N" for a job without an order number. */
  lemma PedidoLineSpelled(t: Task)
    ensures t.pedido == "" ==> PedidoLine(t) == "*Pedido:* S/N" + Br + Br
    ensures t.pedido != "" ==> PedidoLine(t) == "*Pedido:* " + t.pedido + Br + Br
  {
  }

  /** The phone part of the link holds digits only; a number typed as digits is used verbatim. */
  lemma LinkPhone(settings: Settings)
    ensures forall i :: 0 <= i < |DigitsOnly(settings.whatsappNumber)| ==> IsDigit(DigitsOnly(settings.whatsappNumber)[i])
    ensures (forall i :: 0 <= i < |settings.whatsappNumber| ==> IsDigit(settings.whatsappNumber[i])) ==>
      DigitsOnly(settings.whatsappNumber) == settings.whatsappNumber
  {
    if forall i :: 0 <= i < |settings.whatsappNumber| ==> IsDigit(settings.whatsappNumber[i]) {
      DigitsOnlyFixes(settings.whatsappNumber);
    }
  }
}
