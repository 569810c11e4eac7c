/**
 * The records both receivers work with: the normalised alert that the store
 * keeps, and the flat payload the audit collector sends.
 */
module Records {

  /**
   * One stored alert. `raw` holds the payload text as received and
   * `rawText` the body of a request that could not be decoded. The
   * reception time is not part of the model.
   */
  datatype Alert = Alert(
    id: int,
    title: string,
    host: string,
    source: string,
    srcIP: string,
    searchName: string,
    alertType: string,
    severity: string,
    exe: string,
    comm: string,
    uid: string,
    euid: string,
    auid: string,
    pid: string,
    ppid: string,
    tty: string,
    key: string,
    audit: string,
    text: string,
    rawEv: string,
    raw: string,
    rawText: string)

  /** The zero value of an alert: every field empty, id 0. */
  const EmptyAlert := Alert(0, "", "", "", "", "", "", "", "", "", "", "", "", "", "", "", "", "", "", "", "", "")

  /** The alert-type tag of a record whose body could not be decoded. */
  const Unparsed := "unparsed"

  /** The payload of the bundled audit collector; every field is free text. */
  datatype CollectorAlert = CollectorAlert(
    alert: string,
    host: string,
    exe: string,
    comm: string,
    uid: string,
    euid: string,
    auid: string,
    pid: string,
    ppid: string,
    tty: string,
    key: string,
    audit: string,
    text: string,
    raw: string)

  /** The zero value of a collector payload. */
  const ZeroCollector := CollectorAlert("", "", "", "", "", "", "", "", "", "", "", "", "", "")
}
