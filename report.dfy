/** The lines the browser script appends to its output log (updateOutput in
    static/js/script.js): a message and its category. The timestamp and the
    category icon the page puts in front of each line are not modelled. */
module Report {

  /** The `type` argument of updateOutput. */
  datatype Kind = Info | Success | Error

  /** One log line. */
  datatype Line = Line(kind: Kind, text: string)
}
