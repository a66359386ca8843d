/**
 * The consultation record exported as PDF: which text lines the document
 * holds, in which order, with which style, for a given analysis result
 * `data`, raw transcript and doctor name.  A line is one <Text> element: its
 * style and its children in order, as the values the JSX interpolates.
 * Page layout, fonts, the logo image and the turning of a child value into
 * glyphs belong to the PDF renderer and are not modelled.
 */
module MedicalPdf {
  import opened Wrappers
  import opened Json

  datatype Style =
    | Plain          // the bare <Text> of the loading document
    | Title
    | Subtitle
    | DateStamp
    | Label
    | Body
    | DoctorBubble   // styles.chatBubbleDoc
    | PatientBubble  // styles.chatBubblePat
    | Disclaimer

  datatype Line = Line(style: Style, children: seq<Json>)

  /** The TypeErrors that rendering can throw on a result of an unexpected shape. */
  datatype RenderError =
    | NotAFunction(expr: string)   // `.map` on a truthy value that is not an array
    | ReadOfNull(expr: string)     // a property read on a null utterance

  const Doctor := "Médico"
  const Loading := Line(Plain, [JStr("Carregando...")])
  const TranscriptLabel := Line(Label, [JStr("Transcrição da Consulta:")])
  const DiagnosisLabel := Line(Label, [JStr("Hipótese Diagnóstica:")])
  const MedicationLabel := Line(Label, [JStr("Conduta / Medicamentos:")])

  function Header(doctorName: string, today: string): seq<Line> {
    [ Line(Title, [JStr("Prontuário Médico")]),
      Line(Subtitle, [JStr("Co-Pilot Inteligente • Dr(a). "), JStr(doctorName)]),
      Line(DateStamp, [JStr(today)]) ]
  }

  function DisclaimerLine(doctorName: string): Line {
    Line(Disclaimer, [JStr("Documento gerado via Co-Pilot Médico para o Dr(a). "), JStr(doctorName),
                      JStr(". Necessária validação clínica.")])
  }

  /** One utterance: `{fala.falante}: {fala.texto}`, doctor style exactly for the speaker "Médico". */
  function UtteranceLine(fala: Json): Line {
    var speaker := Field(fala, "falante");
    Line(if speaker == JStr(Doctor) then DoctorBubble else PatientBubble,
         [speaker, JStr(": "), Field(fala, "texto")])
  }

  /** `dialogo_estruturado.map(...)`: one line per utterance, in order; a null utterance throws. */
  function UtteranceLines(falas: seq<Json>): (r: Result<seq<Line>, RenderError>)
    ensures r.Success? <==> JNull !in falas
    ensures r.Success? ==> |r.value| == |falas|
    ensures r.Success? ==> forall i :: 0 <= i < |falas| ==> r.value[i] == UtteranceLine(falas[i])
  {
    if falas == [] then Success([])
    else if falas[0] == JNull then Failure(ReadOfNull("fala.falante"))
    else
      match UtteranceLines(falas[1..])
      case Success(rest) => Success([UtteranceLine(falas[0])] + rest)
      case Failure(e) => Failure(e)
  }

  /** `medicamentos_comuns?.map(...)`: a bullet `• {item}` per medication, in order. */
  function Bullets(items: seq<Json>): (r: seq<Line>)
    ensures |r| == |items|
    ensures forall i :: 0 <= i < |items| ==> r[i] == Line(Body, [JStr("• "), items[i]])
  {
    if items == [] then [] else [Line(Body, [JStr("• "), items[0]])] + Bullets(items[1..])
  }

  /** The lines inside the chat box: the structured dialogue when it is truthy, the raw transcript otherwise. */
  function DialogueSection(data: Json, transcript: string): (r: Result<seq<Line>, RenderError>)
    ensures var dialogue := Field(data, "dialogo_estruturado");
      && (r.Success? <==> !Truthy(dialogue) || (dialogue.JArr? && JNull !in dialogue.items))
      && (!Truthy(dialogue) ==> r == Success([Line(Body, [JStr(transcript)])]))
      && (r.Success? && Truthy(dialogue) ==> |r.value| == |dialogue.items|)
  {
    var dialogue := Field(data, "dialogo_estruturado");
    if !Truthy(dialogue) then Success([Line(Body, [JStr(transcript)])])
    else if dialogue.JArr? then UtteranceLines(dialogue.items)
    else Failure(NotAFunction("data.dialogo_estruturado.map"))
  }

  /** The medication lines; optional chaining skips only null and undefined. */
  function MedicationSection(data: Json): (r: Result<seq<Line>, RenderError>)
    ensures var meds := Field(data, "medicamentos_comuns");
      && (r.Success? <==> meds == JNull || meds.JArr?)
      && (r.Success? ==> |r.value| == if meds.JArr? then |meds.items| else 0)
  {
    var meds := Field(data, "medicamentos_comuns");
    if meds == JNull then Success([])
    else if meds.JArr? then Success(Bullets(meds.items))
    else Failure(NotAFunction("data.medicamentos_comuns?.map"))
  }

  /** The page of a truthy `data`, given its dialogue lines and its medication lines. */
  function Page(dialogue: seq<Line>, diagnosis: Json, meds: seq<Line>, doctorName: string, today: string): (r: seq<Line>)
    ensures |r| == 8 + |dialogue| + |meds|
    ensures r[..4] == Header(doctorName, today) + [TranscriptLabel]
    ensures r[4..4 + |dialogue|] == dialogue
    ensures r[4 + |dialogue|..7 + |dialogue|] == [DiagnosisLabel, Line(Body, [diagnosis]), MedicationLabel]
    ensures r[7 + |dialogue|..7 + |dialogue| + |meds|] == meds
    ensures r[|r| - 1] == DisclaimerLine(doctorName)
  {
    Header(doctorName, today) + [TranscriptLabel] + dialogue
      + [DiagnosisLabel, Line(Body, [diagnosis]), MedicationLabel] + meds
      + [DisclaimerLine(doctorName)]
  }

  /**
   * `MedicalPDF({data, transcript, doctorName})`.  `today` stands for
   * `new Date().toLocaleDateString()`.  Children are evaluated in document
   * order, so a bad dialogue throws before a bad medication list.
   */
  function Render(data: Json, transcript: string, doctorName: string, today: string): (r: Result<seq<Line>, RenderError>)
    ensures !Truthy(data) ==> r == Success([Loading])
    ensures Truthy(data) && r.Success? ==> |r.value| >= 8 && r.value[|r.value| - 1] == DisclaimerLine(doctorName)
  {
    if !Truthy(data) then Success([Loading])
    else
      match DialogueSection(data, transcript)
      case Failure(e) => Failure(e)
      case Success(dialogue) =>
        match MedicationSection(data)
        case Failure(e) => Failure(e)
        case Success(meds) =>
          Success(Page(dialogue, Field(data, "diagnostico_provavel"), meds, doctorName, today))
  }

  /** Rendering fails exactly on the shapes that make the JSX throw. */
  predicate Renderable(data: Json) {
    var dialogue := Field(data, "dialogo_estruturado");
    var meds := Field(data, "medicamentos_comuns");
    && (Truthy(dialogue) ==> dialogue.JArr? && JNull !in dialogue.items)
    && (meds == JNull || meds.JArr?)
  }

  /** The loading document is produced exactly for a falsy `data`; otherwise the full page or an error. */
  lemma LoadingIffFalsy(data: Json, transcript: string, doctorName: string, today: string)
    ensures Render(data, transcript, doctorName, today) == Success([Loading]) <==> !Truthy(data)
    ensures Truthy(data) ==> (Render(data, transcript, doctorName, today).Success? <==> Renderable(data))
  {
    var r := Render(data, transcript, doctorName, today);
    if Truthy(data) && r.Success? {
      RenderedPage(data, transcript, doctorName, today, r.value);
    }
  }

  /** A successful rendering of a truthy `data` is the page built from its two sections. */
  lemma RenderedPage(data: Json, transcript: string, doctorName: string, today: string, lines: seq<Line>)
    requires Truthy(data)
    requires Render(data, transcript, doctorName, today) == Success(lines)
    ensures DialogueSection(data, transcript).Success? && MedicationSection(data).Success?
    ensures lines == Page(DialogueSection(data, transcript).value, Field(data, "diagnostico_provavel"),
                          MedicationSection(data).value, doctorName, today)
  {
  }

  /**
   * With a structured dialogue, the chat box holds exactly one line per
   * utterance, in order, each reading `falante: texto` in the doctor style
   * exactly when the speaker is "Médico"; the raw transcript is not shown.
   */
  lemma DialogueLinesInOrder(data: Json, transcript: string, doctorName: string, today: string, lines: seq<Line>)
    requires Truthy(data) && Field(data, "dialogo_estruturado").JArr?
    requires Render(data, transcript, doctorName, today) == Success(lines)
    ensures var falas := Field(data, "dialogo_estruturado").items;
      && |lines| > 4 + |falas|
      && lines[3] == TranscriptLabel
      && lines[4 + |falas|] == DiagnosisLabel
      && forall i :: 0 <= i < |falas| ==>
           && lines[4 + i].children == [Field(falas[i], "falante"), JStr(": "), Field(falas[i], "texto")]
           && lines[4 + i].style == (if Field(falas[i], "falante") == JStr(Doctor) then DoctorBubble else PatientBubble)
  {
    RenderedPage(data, transcript, doctorName, today, lines);
    var falas := Field(data, "dialogo_estruturado").items;
    var dialogue := DialogueSection(data, transcript).value;
    assert |dialogue| == |falas|;
    assert lines[3] == (lines[..4])[3];
    assert lines[4 + |falas|] == lines[4 + |dialogue|..7 + |dialogue|][0];
    forall i | 0 <= i < |falas|
      ensures lines[4 + i] == UtteranceLine(falas[i])
    {
      assert lines[4 + i] == lines[4..4 + |dialogue|][i];
    }
  }

  /** An empty dialogue array is truthy: it yields no lines at all and no transcript fallback. */
  lemma EmptyDialogueHasNoLines(data: Json, transcript: string, doctorName: string, today: string, lines: seq<Line>)
    requires Truthy(data) && Field(data, "dialogo_estruturado") == JArr([])
    requires Render(data, transcript, doctorName, today) == Success(lines)
    ensures lines[3] == TranscriptLabel && lines[4] == DiagnosisLabel
  {
    DialogueLinesInOrder(data, transcript, doctorName, today, lines);
  }

  /** Without a (truthy) structured dialogue, the chat box holds the raw transcript as its single line. */
  lemma TranscriptFallback(data: Json, transcript: string, doctorName: string, today: string, lines: seq<Line>)
    requires Truthy(data) && !Truthy(Field(data, "dialogo_estruturado"))
    requires Render(data, transcript, doctorName, today) == Success(lines)
    ensures |lines| >= 9
    ensures lines[3..6] == [TranscriptLabel, Line(Body, [JStr(transcript)]), DiagnosisLabel]
  {
    RenderedPage(data, transcript, doctorName, today, lines);
    assert lines[3] == (lines[..4])[3];
    assert lines[4] == lines[4..5][0];
    assert lines[5] == lines[5..8][0];
  }

  /**
   * The diagnosis line follows its label, the medication lines are one bullet
   * per item in order (none when the field is absent), and the disclaimer
   * closes the page.
   */
  lemma DiagnosisAndMedications(data: Json, transcript: string, doctorName: string, today: string, lines: seq<Line>)
    requires Truthy(data)
    requires Render(data, transcript, doctorName, today) == Success(lines)
    ensures var meds := Field(data, "medicamentos_comuns");
      var k := if meds.JArr? then |meds.items| else 0;
      && |lines| >= 8 + k
      && lines[|lines| - 4 - k..|lines| - 1 - k]
         == [DiagnosisLabel, Line(Body, [Field(data, "diagnostico_provavel")]), MedicationLabel]
      && (forall i :: 0 <= i < k ==> lines[|lines| - 1 - k + i] == Line(Body, [JStr("• "), meds.items[i]]))
      && lines[|lines| - 1] == DisclaimerLine(doctorName)
  {
    RenderedPage(data, transcript, doctorName, today, lines);
    PageLines(DialogueSection(data, transcript).value, Field(data, "diagnostico_provavel"),
              MedicationSection(data).value, doctorName, today);
  }

  /** The medication lines, indexed one by one within the page. */
  lemma PageLines(dialogue: seq<Line>, diagnosis: Json, meds: seq<Line>, doctorName: string, today: string)
    ensures var r := Page(dialogue, diagnosis, meds, doctorName, today);
      forall i :: 0 <= i < |meds| ==> r[7 + |dialogue| + i] == meds[i]
  {
    var r := Page(dialogue, diagnosis, meds, doctorName, today);
    forall i | 0 <= i < |meds|
      ensures r[7 + |dialogue| + i] == meds[i]
    {
      assert r[7 + |dialogue| + i] == r[7 + |dialogue|..7 + |dialogue| + |meds|][i];
    }
  }

  /** The doctor's name appears in the header's subtitle and in the disclaimer. */
  lemma DoctorNameInHeaderAndDisclaimer(data: Json, transcript: string, doctorName: string, today: string, lines: seq<Line>)
    requires Truthy(data)
    requires Render(data, transcript, doctorName, today) == Success(lines)
    ensures |lines| >= 8
    ensures lines[1].style == Subtitle && JStr(doctorName) in lines[1].children
    ensures lines[|lines| - 1].style == Disclaimer && JStr(doctorName) in lines[|lines| - 1].children
  {
    RenderedPage(data, transcript, doctorName, today, lines);
    assert lines[1] == (lines[..4])[1];
  }

  /** Writing one field of an object leaves every other field's read as it was. */
  lemma OtherFieldUnchanged(fields: map<string, Json>, key: string, v: Json, other: string)
    requires key != other
    ensures Field(JObj(fields[key := v]), other) == Field(JObj(fields), other)
  {
  }

  /** A truthy `data` is read through three fields only. */
  lemma RenderReadsThreeFields(a: Json, b: Json, transcript: string, doctorName: string, today: string)
    requires Truthy(a) && Truthy(b)
    requires Field(a, "dialogo_estruturado") == Field(b, "dialogo_estruturado")
    requires Field(a, "medicamentos_comuns") == Field(b, "medicamentos_comuns")
    requires Field(a, "diagnostico_provavel") == Field(b, "diagnostico_provavel")
    ensures Render(a, transcript, doctorName, today) == Render(b, transcript, doctorName, today)
  {
    assert DialogueSection(a, transcript) == DialogueSection(b, transcript);
    assert MedicationSection(a) == MedicationSection(b);
  }

  /** Suggested exams and associated diseases never reach the document: changing them changes nothing. */
  lemma IgnoredFields(fields: map<string, Json>, key: string, v: Json,
                      transcript: string, doctorName: string, today: string)
    requires key == "exames_sugeridos" || key == "doencas_associadas"
    ensures Render(JObj(fields[key := v]), transcript, doctorName, today)
         == Render(JObj(fields), transcript, doctorName, today)
  {
    assert key[1] != "dialogo_estruturado"[1] && key[0] != "medicamentos_comuns"[0];
    OtherFieldUnchanged(fields, key, v, "dialogo_estruturado");
    OtherFieldUnchanged(fields, key, v, "medicamentos_comuns");
    OtherFieldUnchanged(fields, key, v, "diagnostico_provavel");
    RenderReadsThreeFields(JObj(fields[key := v]), JObj(fields), transcript, doctorName, today);
  }
}
