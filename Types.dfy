/**
 * The records of the workshop planner (types.ts): the four job statuses,
 * the job record itself, the job as the entry form hands it over (without
 * id and creation time) and the settings record.
 *
 * Optional fields of the job (`fileData?`, `dxfFileName?`, `dxfFileData?`,
 * `syncedToSheet?`) are plain values here: the code only ever tests them
 * for truthiness, so the empty string and `false` stand for "absent".
 */
module Types {

  /** `TaskStatus`: exactly four values; there is no archived status. */
  datatype TaskStatus = Pendiente | EnCorte | Acabado | Urgente

  /** The string value of each enum member. */
  function StatusLabel(s: TaskStatus): (name: string)
    ensures name in ["Pendiente", "En Corte", "Acabado", "Urgente"]
    ensures name != ""
  {
    match s
    case Pendiente => "Pendiente"
    case EnCorte => "En Corte"
    case Acabado => "Acabado"
    case Urgente => "Urgente"
  }

  /** Distinct statuses have distinct string values, and none is empty. */
  lemma StatusLabelInjective(a: TaskStatus, b: TaskStatus)
    ensures StatusLabel(a) != ""
    ensures StatusLabel(a) == StatusLabel(b) ==> a == b
  {
    match a
    case Pendiente => assert StatusLabel(a)[0] == 'P';
    case EnCorte => assert StatusLabel(a)[0] == 'E';
    case Acabado => assert StatusLabel(a)[0] == 'A';
    case Urgente => assert StatusLabel(a)[0] == 'U';
  }

  /** `MarbleTask`: one work order. */
  datatype Task = Task(
    id: string,
    montador: string,
    fecha: string,
    deliveryDate: string,
    hora: string,
    pedido: string,
    clientName: string,
    description: string,
    material: string,
    color: string,
    status: TaskStatus,
    fileName: string,
    fileData: string,
    dxfFileName: string,
    dxfFileData: string,
    createdAt: nat,
    syncedToSheet: bool)

  /** `Omit<MarbleTask, 'id' | 'createdAt'>` as the entry form builds it. */
  datatype TaskInput = TaskInput(
    montador: string,
    fecha: string,
    deliveryDate: string,
    hora: string,
    pedido: string,
    clientName: string,
    description: string,
    material: string,
    color: string,
    status: TaskStatus,
    fileName: string,
    fileData: string,
    dxfFileName: string,
    dxfFileData: string)

  /** The form's fields of a stored job: what `{ ...taskData }` copied in. */
  function InputOf(t: Task): TaskInput
  {
    TaskInput(t.montador, t.fecha, t.deliveryDate, t.hora, t.pedido, t.clientName,
              t.description, t.material, t.color, t.status,
              t.fileName, t.fileData, t.dxfFileName, t.dxfFileData)
  }

  /** `AppSettings`. */
  datatype Settings = Settings(
    whatsappNumber: string,
    notificationsEnabled: bool,
    sendToGroup: bool,
    googleSheetEnabled: bool,
    googleSheetWebhookUrl: string)

  /** The settings the application starts with before anything is loaded. */
  const DefaultSettings: Settings :=
    Settings("", true, false, false, "")
}
