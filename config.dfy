/** The values of config/default.ts. */
module Config {

  const Port: nat := 8000

  /** Access-token lifetime, in minutes. */
  const AccessTokenExpiresIn: nat := 15

  /** Refresh-token lifetime, in minutes. */
  const RefreshTokenExpiresIn: nat := 59

  const Origin: string := "http://localhost:8080"
}
