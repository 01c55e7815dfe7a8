/** The driver and role names declared as class constants of DatabaseManager
    (src/DatabaseManager.php), shared with PdoAdapter. */
module Constants {
  const DRIVER_MYSQL: string := "mysql"
  const DRIVER_PGSQL: string := "pgsql"
  const DRIVER_SQLITE: string := "sqlite"
  const DRIVER_SQLSRV: string := "sqlsrv"

  const ROLE_MASTER: string := "master"
  const ROLE_SLAVE: string := "slave"
}
