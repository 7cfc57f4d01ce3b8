/** Shared record types of the back end that the front end displays. */
module Types {

  /** The closed severity enumeration of an audit finding. */
  datatype Severity = High | Medium | Low

  /** One audit finding. */
  datatype Vulnerability = Vulnerability(title: string, description: string, severity: Severity)

  /** The string value a severity takes at run time. */
  function SeverityName(s: Severity): (name: string)
    ensures |name| > 0
  {
    match s
    case High => "High"
    case Medium => "Medium"
    case Low => "Low"
  }

  /** Distinct severities have distinct names, so comparing names compares
      severities. */
  lemma SeverityNameInjective(s: Severity, t: Severity)
    ensures SeverityName(s) == SeverityName(t) <==> s == t
  {
    if s != t {
      assert SeverityName(s)[0] != SeverityName(t)[0];
    }
  }
}
