/** The three-bucket status rule. The same conditions appear twice in the
    source: once for the detail record's `estado` and once, repeated, for the
    coloured "pill" of the order list. */
module OrderStatus {
  import opened Wrappers

  /** The coarse display state of an order. */
  datatype Estado = Entregado | Procesando | Enviado

  /** The literal the detail record stores in `estado`: always one of the
      three bucket names. */
  function EstadoText(e: Estado): (text: string)
    ensures text in {"Entregado", "Procesando", "Enviado"}
  {
    match e
    case Entregado => "Entregado"
    case Procesando => "Procesando"
    case Enviado => "Enviado"
  }

  /** Vendor status codes of an invoiced or delivered order. */
  const DeliveredCodes: set<string> := {"invoiced", "delivered"}

  /** Vendor status codes of an order being prepared. */
  const HandlingCodes: set<string> := {"handling", "ready-for-handling"}

  /** The detail rule: `status` is the vendor's raw status code (`None` when
      the property is absent). First match wins; every code not listed,
      absent or empty, falls into `Enviado`. */
  function Classify(status: Option<string>): (e: Estado)
    ensures e == Entregado <==> status.Some? && status.value in DeliveredCodes
    ensures e == Procesando <==> status.Some? && status.value in HandlingCodes
    ensures e == Enviado <==>
      status.None? || (status.value !in DeliveredCodes && status.value !in HandlingCodes)
  {
    if status == Some("invoiced") || status == Some("delivered") then Entregado
    else if status == Some("handling") || status == Some("ready-for-handling") then Procesando
    else Enviado
  }

  lemma EstadoTextInjective(e1: Estado, e2: Estado)
    ensures EstadoText(e1) == EstadoText(e2) <==> e1 == e2
  {
  }

  /** The status pill of the order list: its CSS class and its text. */
  datatype Pill = Pill(cssClass: string, text: string)

  /** The list rule, written with its own copy of the conditions. */
  function ListPill(status: Option<string>): (p: Pill)
    ensures p.text in {"Pagado/Entregado", "En Preparación", "Enviado"}
  {
    if status == Some("invoiced") || status == Some("delivered") then
      Pill("success-pill", "Pagado/Entregado")
    else if status == Some("handling") || status == Some("ready-for-handling") then
      Pill("warning-pill", "En Preparación")
    else
      Pill("info-pill success-pill", "Enviado")
  }

  /** The pill that belongs to each bucket. */
  function PillOf(e: Estado): (p: Pill)
    ensures p.text in {"Pagado/Entregado", "En Preparación", "Enviado"}
    ensures p.cssClass in {"success-pill", "warning-pill", "info-pill success-pill"}
  {
    match e
    case Entregado => Pill("success-pill", "Pagado/Entregado")
    case Procesando => Pill("warning-pill", "En Preparación")
    case Enviado => Pill("info-pill success-pill", "Enviado")
  }

  /** The list and the detail view never disagree: the pill shown for a
      status is the one of the bucket the detail record stores. */
  lemma ListPillAgreesWithEstado(status: Option<string>)
    ensures ListPill(status) == PillOf(Classify(status))
  {
  }

  /** Different buckets get different pill texts, so the text tells the
      bucket back. */
  lemma PillLabelDeterminesEstado(e1: Estado, e2: Estado)
    ensures PillOf(e1).text == PillOf(e2).text ==> e1 == e2
  {
  }
}
