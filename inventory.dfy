/**
 * Vocabulary shared by the batch synchronisations: the quantity normalisation
 * that never lets a negative stock leave the middleware, the status column of
 * the CSV audit rows, and the success/error tally a run reports.
 */
module Inventory {

  /** "Normalizar: nunca enviar negativos": a negative quantity is sent as 0, any other unchanged. */
  function Clamp(q: int): (c: nat)
    ensures c == q || (q < 0 && c == 0)
    ensures c >= q
  {
    if q < 0 then 0 else q
  }

  /** The `Estado` column of a sync CSV row. */
  datatype Status = Simulated | Updated | Failed

  /** The text written into the CSV for each status. */
  function Label(s: Status): (l: string)
    ensures s == Simulated <==> l == "Simulado"
    ensures s == Updated <==> l == "Actualizado"
    ensures s == Failed <==> l == "Error"
  {
    match s
    case Simulated => "Simulado"
    case Updated => "Actualizado"
    case Failed => "Error"
  }

  /** The counters a run returns: successes (simulated or updated) and errors. */
  datatype Tally = Tally(succeeded: nat, failed: nat)
}
