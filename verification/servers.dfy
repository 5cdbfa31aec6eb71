/** The client configuration and the choice of a worker server
    (`WebApiConfig` and `pick_server` in rust/src/webapi.rs). Loading the
    configuration file and the certificate is not modelled: a configuration
    is a value handed to the client. */
module Servers {
  import opened Outcomes

  /** A server base address; request URLs are formed by appending a path. */
  type Server = string

  datatype WebApiConfig = WebApiConfig(trustCert: string, servers: seq<Server>)

  /** The panic message when there is nothing to choose from. */
  const NO_SERVER: string := "No server found!"

  /** `pick_server`: `draw` is the random generator's choice, reduced to the
      length of the list. `None` stands for the panic on an empty list. */
  function PickServer(config: WebApiConfig, draw: nat): (r: Option<Server>)
    ensures r.Some? <==> |config.servers| > 0
    ensures r.Some? ==> r.value in config.servers
  {
    if |config.servers| == 0 then None
    else Some(config.servers[draw % |config.servers|])
  }

  /** Every configured server can be chosen: the draw `i` picks the `i`-th. */
  lemma EveryServerReachable(config: WebApiConfig, i: nat)
    requires i < |config.servers|
    ensures PickServer(config, i) == Some(config.servers[i])
  {
  }
}
