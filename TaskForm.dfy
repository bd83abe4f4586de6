/**
 * The job entry form (components/TaskForm.tsx): the choice of at most two
 * workers ("montadores"), the editable fields, the attached drawings, and
 * the validation and record building of a submission.
 */
module TaskForm {
  import opened Wrappers
  import opened Types
  import opened Seqs
  import opened Text

  /** The workers offered by the form (TaskForm.tsx:11). */
  const Available: seq<string> :=
    ["Cesar", "Sergio", "Pol", "Arturo", "Ra\U{00FA}l", "Fernando", "Paco", "Taller", "Otros"]

  /** At most this many workers can be assigned to a job (TaskForm.tsx:34). */
  const MaxMontadores: nat := 2

  /** The separator of the assigned workers in the stored job (TaskForm.tsx:72). */
  const Separator: string := " / "

  /** A selection the form can hold: at most two names, none twice. */
  predicate ValidSelection(sel: seq<string>)
  {
    |sel| <= MaxMontadores && NoDuplicates(sel)
  }

  /** The test of the deselecting filter (TaskForm.tsx:32). */
  function Other(nombre: string): string -> bool
  {
    n => n != nombre
  }

  /** `toggleMontador`'s new selection (TaskForm.tsx:30-40). */
  function Toggle(sel: seq<string>, nombre: string): (r: seq<string>)
    ensures nombre in sel ==> nombre !in r
    ensures nombre in sel ==> forall n :: multiset(r)[n] == if n == nombre then 0 else multiset(sel)[n]
    ensures nombre !in sel && |sel| < MaxMontadores ==> r == sel + [nombre]
    ensures nombre !in sel && |sel| >= MaxMontadores ==> r == sel
  {
    if nombre in sel then Filter(sel, Other(nombre))
    else if |sel| < MaxMontadores then sel + [nombre]
    else sel
  }

  /** Deselecting a worker removes it from its place and keeps the others in order. */
  lemma ToggleRemoves(sel: seq<string>, k: nat)
    requires k < |sel| && NoDuplicates(sel)
    ensures Toggle(sel, sel[k]) == sel[..k] + sel[k + 1..]
  {
    var nombre := sel[k];
    var a, b := sel[..k], sel[k + 1..];
    assert sel == a + [nombre] + b;
    assert forall i :: 0 <= i < |a| ==> Other(nombre)(a[i]) by {
      forall i | 0 <= i < |a| ensures a[i] != nombre { assert a[i] == sel[i]; }
    }
    assert forall i :: 0 <= i < |b| ==> Other(nombre)(b[i]) by {
      forall i | 0 <= i < |b| ensures b[i] != nombre { assert b[i] == sel[k + 1 + i]; }
    }
    var keep := Other(nombre);
    assert nombre in sel;
    assert Toggle(sel, nombre) == Filter(sel, keep);
    FilterAppend(a + [nombre], b, keep);
    FilterAppend(a, [nombre], keep);
    assert !keep(nombre);
    assert Filter([nombre], keep) == [];
    FilterKeepsAll(a, keep);
    FilterKeepsAll(b, keep);
    assert Filter(a + [nombre], keep) == a;
    assert Filter(sel, keep) == a + b;
  }

  /** A toggle keeps the selection valid. */
  lemma ToggleValid(sel: seq<string>, nombre: string)
    requires ValidSelection(sel)
    ensures ValidSelection(Toggle(sel, nombre))
  {
    if nombre in sel {
      var k :| 0 <= k < |sel| && sel[k] == nombre;
      ToggleRemoves(sel, k);
    }
  }

  /** The selection after a run of clicks on worker buttons. */
  function Clicks(sel: seq<string>, names: seq<string>): seq<string>
    decreases |names|
  {
    if names == [] then sel else Clicks(Toggle(sel, names[0]), names[1..])
  }

  /** From the empty selection, no run of clicks yields more than two workers or a worker twice. */
  lemma {:induction false} ClicksValid(sel: seq<string>, names: seq<string>)
    requires ValidSelection(sel)
    ensures ValidSelection(Clicks(sel, names))
    decreases |names|
  {
    if names != [] {
      ToggleValid(sel, names[0]);
      ClicksValid(Toggle(sel, names[0]), names[1..]);
    }
  }

  /** A toggle never adds a worker other than the one clicked. */
  lemma {:induction false} ClicksFromAvailable(sel: seq<string>, names: seq<string>)
    requires forall n :: n in sel ==> n in Available
    requires forall n :: n in names ==> n in Available
    ensures forall n :: n in Clicks(sel, names) ==> n in Available
    decreases |names|
  {
    if names != [] {
      assert names[0] in names;
      var next := Toggle(sel, names[0]);
      assert forall n :: n in names[1..] ==> n in names;
      ClicksFromAvailable(next, names[1..]);
    }
  }

  /** The fields of the form (TaskForm.tsx:14-24). */
  datatype FormData = FormData(
    fecha: string,
    deliveryDate: string,
    hora: string,
    pedido: string,
    clientName: string,
    material: string,
    color: string,
    description: string,
    status: TaskStatus)

  /** The form as it opens on `today`: every field empty, status pending (TaskForm.tsx:14-24). */
  function InitialForm(today: string): (f: FormData)
    ensures f.status == Pendiente && f.fecha == today
    ensures f.clientName == "" && f.deliveryDate == "" && f.hora == ""
  {
    FormData(today, "", "", "", "", "", "", "", Pendiente)
  }

  /** The fields the form lets the user type into (TaskForm.tsx:128-184). */
  datatype Field = Pedido | DeliveryDate | ClientName | Material | Color | Description

  /** The value an input shows for its field. */
  function FieldValue(f: FormData, field: Field): string
  {
    match field
    case Pedido => f.pedido
    case DeliveryDate => f.deliveryDate
    case ClientName => f.clientName
    case Material => f.material
    case Color => f.color
    case Description => f.description
  }

  /** `setFormData(prev => ({ ...prev, <field>: value }))`. */
  function WithField(f: FormData, field: Field, value: string): (g: FormData)
    ensures FieldValue(g, field) == value
    ensures forall o: Field :: o != field ==> FieldValue(g, o) == FieldValue(f, o)
    ensures g.fecha == f.fecha && g.hora == f.hora && g.status == f.status
  {
    match field
    case Pedido => f.(pedido := value)
    case DeliveryDate => f.(deliveryDate := value)
    case ClientName => f.(clientName := value)
    case Material => f.(material := value)
    case Color => f.(color := value)
    case Description => f.(description := value)
  }

  /** An attached drawing: its file name and its content as a data URL. */
  datatype Attachment = Attachment(name: string, data: string)

  /** `file?.name || ''` and `file?.data || ''` (TaskForm.tsx:73-76). */
  function NameOr(file: Option<Attachment>): string
  {
    match file
    case Some(a) => a.name
    case None => ""
  }

  function DataOr(file: Option<Attachment>): string
  {
    match file
    case Some(a) => a.data
    case None => ""
  }

  /** Why a submission was refused (TaskForm.tsx:60-67). */
  datatype FormError = NoMontador | MissingClientOrDate

  /** `handleSubmit` (TaskForm.tsx:58-78): the record handed to `onSubmit`, or why there is none. */
  function Submission(sel: seq<string>, f: FormData, pdf: Option<Attachment>, dxf: Option<Attachment>)
    : (r: Result<TaskInput, FormError>)
    ensures r.Err? <==> sel == [] || f.clientName == "" || f.deliveryDate == ""
    ensures sel == [] ==> r == Err(NoMontador)
    ensures sel != [] && r.Err? ==> r == Err(MissingClientOrDate)
    ensures r.Ok? ==> r.value.montador == Join(sel, Separator)
    ensures r.Ok? ==> r.value.clientName == f.clientName && r.value.deliveryDate == f.deliveryDate
    ensures r.Ok? ==> r.value.fecha == f.fecha && r.value.hora == f.hora && r.value.pedido == f.pedido
    ensures r.Ok? ==> r.value.material == f.material && r.value.color == f.color
    ensures r.Ok? ==> r.value.description == f.description && r.value.status == f.status
    ensures r.Ok? ==> r.value.fileName == (if pdf.Some? then pdf.value.name else "")
    ensures r.Ok? ==> r.value.fileData == (if pdf.Some? then pdf.value.data else "")
    ensures r.Ok? ==> r.value.dxfFileName == (if dxf.Some? then dxf.value.name else "")
    ensures r.Ok? ==> r.value.dxfFileData == (if dxf.Some? then dxf.value.data else "")
  {
    if |sel| == 0 then Err(NoMontador)
    else if f.clientName == "" || f.deliveryDate == "" then Err(MissingClientOrDate)
    else Ok(TaskInput(Join(sel, Separator), f.fecha, f.deliveryDate, f.hora, f.pedido,
                      f.clientName, f.description, f.material, f.color, f.status,
                      NameOr(pdf), DataOr(pdf), NameOr(dxf), DataOr(dxf)))
  }

  /** The workers go into the record in the order they were selected, separated by " / ". */
  lemma SubmittedMontador(sel: seq<string>, f: FormData, pdf: Option<Attachment>, dxf: Option<Attachment>)
    requires Submission(sel, f, pdf, dxf).Ok?
    requires |sel| <= MaxMontadores
    ensures |sel| == 1 ==> Submission(sel, f, pdf, dxf).value.montador == sel[0]
    ensures |sel| == 2 ==> Submission(sel, f, pdf, dxf).value.montador == sel[0] + " / " + sel[1]
  {
    if |sel| == 2 {
      assert sel == [sel[0]] + [sel[1]];
      JoinSnoc([sel[0]], Separator, sel[1]);
    }
  }

  /** The entry form as an object: its state and the handlers that change it. */
  class Form {
    var selected: seq<string>
    var formData: FormData
    var pdfFile: Option<Attachment>
    var dxfFile: Option<Attachment>
    var isSubmitting: bool

    /**
     * What holds in every state of the form: a valid selection, and the
     * fields no input changes still as they were initialised.
     */
    ghost predicate Valid()
      reads this
    {
      ValidSelection(selected) && formData.status == Pendiente && formData.hora == ""
    }

    /** The form as it opens (TaskForm.tsx:13-28). */
    constructor (today: string)
      ensures Valid()
      ensures selected == [] && formData == InitialForm(today)
      ensures pdfFile == None && dxfFile == None && !isSubmitting
    {
      selected := [];
      formData := InitialForm(today);
      pdfFile := None;
      dxfFile := None;
      isSubmitting := false;
    }

    /**
     * `toggleMontador` (TaskForm.tsx:30-40); `refused` is whether the
     * "only two workers" alert is shown.
     */
    method ToggleMontador(nombre: string) returns (refused: bool)
      requires Valid()
      modifies this
      ensures Valid()
      ensures selected == Toggle(old(selected), nombre)
      ensures refused <==> nombre !in old(selected) && |old(selected)| >= MaxMontadores
      ensures refused ==> selected == old(selected)
      ensures formData == old(formData) && pdfFile == old(pdfFile) && dxfFile == old(dxfFile)
      ensures isSubmitting == old(isSubmitting)
    {
      ToggleValid(selected, nombre);
      refused := nombre !in selected && |selected| >= MaxMontadores;
      selected := Toggle(selected, nombre);
    }

    /** One of the text inputs' `onChange` handlers (TaskForm.tsx:128-184). */
    method SetField(field: Field, value: string)
      requires Valid()
      modifies this
      ensures Valid()
      ensures formData == WithField(old(formData), field, value)
      ensures FieldValue(formData, field) == value
      ensures forall o: Field :: o != field ==> FieldValue(formData, o) == FieldValue(old(formData), o)
      ensures formData.status == Pendiente
      ensures selected == old(selected) && pdfFile == old(pdfFile) && dxfFile == old(dxfFile)
      ensures isSubmitting == old(isSubmitting)
    {
      formData := WithField(formData, field, value);
    }

    /** The end of `handleFileChange` once the file is read (TaskForm.tsx:46-53). */
    method AttachFile(isPdf: bool, file: Attachment)
      requires Valid()
      modifies this
      ensures Valid()
      ensures pdfFile == if isPdf then Some(file) else old(pdfFile)
      ensures dxfFile == if isPdf then old(dxfFile) else Some(file)
      ensures selected == old(selected) && formData == old(formData)
      ensures isSubmitting == old(isSubmitting)
    {
      if isPdf {
        pdfFile := Some(file);
      } else {
        dxfFile := Some(file);
      }
    }

    /** `handleSubmit` (TaskForm.tsx:58-78): what is handed to `onSubmit`, if anything. */
    method HandleSubmit() returns (r: Result<TaskInput, FormError>)
      requires Valid()
      modifies this
      ensures Valid()
      ensures r == Submission(selected, formData, pdfFile, dxfFile)
      ensures r.Ok? ==> r.value.status == Pendiente
      ensures isSubmitting == (old(isSubmitting) || r.Ok?)
      ensures selected == old(selected) && formData == old(formData)
      ensures pdfFile == old(pdfFile) && dxfFile == old(dxfFile)
    {
      r := Submission(selected, formData, pdfFile, dxfFile);
      if r.Ok? {
        isSubmitting := true;
      }
    }
  }
}
