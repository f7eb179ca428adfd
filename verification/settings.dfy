/**
  The script's startup parameters and the check made on them before monitoring
  begins (notify_ping.py, lines 86-104).
 */
module Settings {
  import opened Wrappers

  /** The parsed command line. A flag that was not given is `None`. */
  datatype Arguments = Arguments(
    address: Option<string>,
    smtpaddr: Option<string>,
    email: Option<string>,
    to: Option<string>,
    pswd: Option<string>,
    interval: int)

  /** The validated settings the monitor runs with for the whole process lifetime. */
  datatype Config = Config(
    address: string,
    smtpaddr: string,
    email: string,
    to: string,
    pswd: string,
    interval: int)

  /** The message the script exits with when a mandatory parameter is missing. */
  const MissingParameters := "Error. Some required parameters are missing."

  /** Python truthiness of an optional string: neither `None` nor empty. */
  predicate Given(o: Option<string>) {
    o.Some? && o.value != ""
  }

  /** The five mandatory parameters are all given and non-empty. */
  ghost predicate Complete(a: Arguments) {
    Given(a.address) && Given(a.smtpaddr) && Given(a.email) && Given(a.to) && Given(a.pswd)
  }

  /**
    Startup validation: fails with the fixed message when any of address,
    smtpaddr, email, to or pswd is missing or empty, and otherwise carries
    every parameter over unchanged.
   */
  function Validate(a: Arguments): (r: Result<Config, string>)
    ensures r.Success? <==> Complete(a)
    ensures r.Failure? ==> r.error == MissingParameters
    ensures r.Success? ==>
      && Some(r.value.address) == a.address
      && Some(r.value.smtpaddr) == a.smtpaddr
      && Some(r.value.email) == a.email
      && Some(r.value.to) == a.to
      && Some(r.value.pswd) == a.pswd
      && r.value.interval == a.interval
    ensures r.Success? ==> ValidConfig(r.value)
  {
    if !Given(a.address) || !Given(a.smtpaddr) || !Given(a.email) || !Given(a.to) || !Given(a.pswd) then
      Failure(MissingParameters)
    else
      Success(Config(a.address.value, a.smtpaddr.value, a.email.value, a.to.value, a.pswd.value, a.interval))
  }

  /** A configuration that passed startup validation has no empty mandatory field. */
  predicate ValidConfig(c: Config) {
    c.address != "" && c.smtpaddr != "" && c.email != "" && c.to != "" && c.pswd != ""
  }
}
