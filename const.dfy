/** The integration's fixed values: its domain, the vendor hosts and the client
    identity it presents. */
module Const {
  const Domain := "scnr"
  const UsernameKey := "username"
  const PasswordKey := "password"
  const ApiHost := "https://wonderlabs.eu.api.switchbot.net"
  const AuthHost := "https://account.api.switchbot.net"
  const ClientId := "5nnwmhmsa9xxskm14hd85lm9bm"
  const AppVersion := "8.6.1"
  const ContentType := "application/json; charset=UTF-8"

  /** The model-name fragment that device discovery looks for. */
  const TargetModel := "Floor Cleaning Robot S10"

  /** The function identifier of the vendor's "invoke device function" call. */
  const CleanFunctionId := 1001

  /** Initial values of the five setting entities (select.py, number.py). */
  const DefaultRoom := "ROOM_000"
  const DefaultMode := "sweep"
  const DefaultLevel := 1
}
