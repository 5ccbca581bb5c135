/**
 * The domain types of the CRM: the five-state client status, the client
 * record, and the two total status maps used for display.
 */
module Types {
  import opened Wrappers

  /** A point in time as milliseconds since the epoch (the value of `Date.getTime()`). */
  type Millis = int

  /** The five lifecycle stages of a client. */
  datatype ClientStatus = Novo | EmContato | Aguardando | Fechado | Perdido

  /** The statuses in the order the form's status selector offers them. */
  const AllStatuses: seq<ClientStatus> := [Novo, EmContato, Aguardando, Fechado, Perdido]

  lemma AllStatusesEnumerates()
    ensures |AllStatuses| == 5
    ensures forall s: ClientStatus :: s in AllStatuses
    ensures forall i, j :: 0 <= i < j < |AllStatuses| ==> AllStatuses[i] != AllStatuses[j]
  {
    forall s: ClientStatus ensures s in AllStatuses {
      match s
      case Novo => assert AllStatuses[0] == s;
      case EmContato => assert AllStatuses[1] == s;
      case Aguardando => assert AllStatuses[2] == s;
      case Fechado => assert AllStatuses[3] == s;
      case Perdido => assert AllStatuses[4] == s;
    }
  }

  /** The string that stands for a status in the stored records and in the status selector. */
  function StatusKey(s: ClientStatus): string {
    match s
    case Novo => "novo"
    case EmContato => "em_contato"
    case Aguardando => "aguardando"
    case Fechado => "fechado"
    case Perdido => "perdido"
  }

  /** Reads a status back from its key; any other string is not a status. */
  function ParseStatus(k: string): (r: Option<ClientStatus>)
    ensures r.Some? ==> StatusKey(r.value) == k
    ensures forall s :: StatusKey(s) == k ==> r == Some(s)
  {
    if k == "novo" then Some(Novo)
    else if k == "em_contato" then Some(EmContato)
    else if k == "aguardando" then Some(Aguardando)
    else if k == "fechado" then Some(Fechado)
    else if k == "perdido" then Some(Perdido)
    else None
  }

  /** The human-readable label of each status. */
  function StatusLabel(s: ClientStatus): string {
    match s
    case Novo => "Novo"
    case EmContato => "Em Contato"
    case Aguardando => "Aguardando Resposta"
    case Fechado => "Fechado"
    case Perdido => "Perdido"
  }

  /** The style class of each status. */
  function StatusClass(s: ClientStatus): string {
    match s
    case Novo => "status-new"
    case EmContato => "status-contact"
    case Aguardando => "status-waiting"
    case Fechado => "status-closed"
    case Perdido => "status-lost"
  }

  /** Both maps are total, and each tells every status apart from the others. */
  lemma StatusMapsInjective(s: ClientStatus, t: ClientStatus)
    ensures StatusLabel(s) != "" && StatusClass(s) != ""
    ensures s != t ==> StatusLabel(s) != StatusLabel(t) && StatusClass(s) != StatusClass(t)
    ensures s != t ==> StatusKey(s) != StatusKey(t)
  {
  }

  /** A client is still being worked on unless the deal is closed or lost. */
  predicate IsActive(s: ClientStatus) {
    s != Fechado && s != Perdido
  }

  /**
   * One client record. The textual fields are strings; the three timestamps,
   * stored as ISO-8601 text by the source, are their millisecond values.
   */
  datatype Client = Client(
    id: string,
    name: string,
    phone: string,
    email: string,
    product: string,
    status: ClientStatus,
    notes: string,
    lastContact: Millis,
    createdAt: Millis,
    updatedAt: Millis)

  /** What a caller supplies to create a client: every field but the id and the two store timestamps. */
  datatype ClientData = ClientData(
    name: string,
    phone: string,
    email: string,
    product: string,
    status: ClientStatus,
    notes: string,
    lastContact: Millis)

  /** A partial client record: each field either present or absent. */
  datatype ClientPatch = ClientPatch(
    id: Option<string>,
    name: Option<string>,
    phone: Option<string>,
    email: Option<string>,
    product: Option<string>,
    status: Option<ClientStatus>,
    notes: Option<string>,
    lastContact: Option<Millis>,
    createdAt: Option<Millis>,
    updatedAt: Option<Millis>)

  /** The caller-supplied part of a client record. */
  function DataOf(c: Client): ClientData {
    ClientData(c.name, c.phone, c.email, c.product, c.status, c.notes, c.lastContact)
  }

  /** Form data handed over as a partial record: its seven fields present, the other three absent. */
  function PatchOf(d: ClientData): ClientPatch {
    ClientPatch(None, Some(d.name), Some(d.phone), Some(d.email), Some(d.product),
                Some(d.status), Some(d.notes), Some(d.lastContact), None, None)
  }

  /** A client's status as a predicate on records. */
  function HasStatus(s: ClientStatus): Client -> bool {
    (c: Client) => c.status == s
  }
}
