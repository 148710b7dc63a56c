/** The messages of the control channel and the header of a data stream. */
module Protocol {

  const HTTP := "http"
  const TCP := "tcp"

  datatype RegisterRequest = RegisterRequest(
    typ: string,
    domain: string,
    localPort: int,
    remotePort: int,
    private: bool,
    password: string,
    allowIPs: seq<string>)

  datatype TunnelInfo = TunnelInfo(typ: string, subdomain: string, publicUrl: string, port: int, localPort: int)

  datatype Message =
    | Auth(token: string)
    | AuthOK
    | Register(req: RegisterRequest)
    | Registered(publicUrl: string, host: string, port: int, generatedPassword: string)
    | Error(message: string)
    | Claim(name: string)
    | Unclaim(name: string)
    | OK
    | ListTunnels
    | TunnelList(tunnels: seq<TunnelInfo>)

  datatype StreamHeader = StreamHeader(tunnelId: string, localPort: int)
}
