/** The application configuration (internal/config/config.go) after it
    has been read from YAML: `setDefaults` fills empty fields and forces the
    exchange's base URL; `selectAPIKeys` picks the key pair for the
    environment. Reading the file is outside the model. */
module AppConfig {

  datatype MySql = MySql(host: string, port: int, user: string, password: string, database: string)
  datatype Redis = Redis(host: string, port: int, password: string, db: int)
  datatype Database = Database(mysql: MySql, redis: Redis)
  datatype Exchange = Exchange(
    name: string, testApiKey: string, testApiSecret: string, prodApiKey: string, prodApiSecret: string,
    apiKey: string, apiSecret: string, baseUrl: string)
  datatype Logging = Logging(level: string, file: string)
  datatype Server = Server(host: string, port: int)
  datatype Cache = Cache(ttl: int)

  /** The whole configuration as a value. */
  datatype Settings = Settings(
    environment: string, database: Database, exchange: Exchange,
    logging: Logging, server: Server, cache: Cache)

  const ProductionUrl: string := "https://api.binance.com"

  function OrString(s: string, default: string): (r: string)
    ensures s != "" ==> r == s
    ensures s == "" ==> r == default
  {
    if s == "" then default else s
  }

  function OrInt(i: int, default: int): (r: int)
    ensures i != 0 ==> r == i
    ensures i == 0 ==> r == default
  {
    if i == 0 then default else i
  }

  function DatabaseDefaults(d: Database): Database
  {
    Database(
      d.mysql.(host := OrString(d.mysql.host, "localhost"), port := OrInt(d.mysql.port, 3306),
               database := OrString(d.mysql.database, "binance_indicators")),
      d.redis.(host := OrString(d.redis.host, "localhost"), port := OrInt(d.redis.port, 6379)))
  }

  /** setDefaults as a function of the configuration it is given. */
  function WithDefaults(s: Settings): Settings
  {
    Settings(
      OrString(s.environment, "production"),
      DatabaseDefaults(s.database),
      s.exchange.(baseUrl := ProductionUrl),
      Logging(OrString(s.logging.level, "info"), OrString(s.logging.file, "logs/indicators.log")),
      Server(OrString(s.server.host, "0.0.0.0"), OrInt(s.server.port, 8080)),
      Cache(OrInt(s.cache.ttl, 300)))
  }

  /** selectAPIKeys as a function of the configuration it is given. */
  function WithSelectedKeys(s: Settings): Settings
  {
    var ex := s.exchange;
    var isTest := s.environment == "test";
    var key := if isTest then ex.testApiKey else ex.prodApiKey;
    var secret := if isTest then ex.testApiSecret else ex.prodApiSecret;
    s.(exchange := ex.(apiKey := key, apiSecret := secret, baseUrl := ProductionUrl))
  }

  /** Every field setDefaults covers is set afterwards: its strings are
      non-empty and its ports and TTL are not zero; the base URL is the
      production endpoint. */
  lemma DefaultsFilled(s: Settings)
    ensures var d := WithDefaults(s);
            d.environment != "" && d.database.mysql.host != "" && d.database.mysql.port != 0 &&
            d.database.mysql.database != "" && d.database.redis.host != "" && d.database.redis.port != 0 &&
            d.logging.level != "" && d.logging.file != "" && d.server.host != "" && d.server.port != 0 &&
            d.cache.ttl != 0 && d.exchange.baseUrl == ProductionUrl
  {
  }

  /** Fields that were already set keep their values, and the fields
      setDefaults does not cover are untouched; only the base URL is
      overwritten. */
  lemma DefaultsKeepSetFields(s: Settings)
    ensures var d := WithDefaults(s);
            (s.environment != "" ==> d.environment == s.environment) &&
            (s.database.mysql.host != "" ==> d.database.mysql.host == s.database.mysql.host) &&
            (s.database.mysql.port != 0 ==> d.database.mysql.port == s.database.mysql.port) &&
            (s.database.mysql.database != "" ==> d.database.mysql.database == s.database.mysql.database) &&
            (s.database.redis.host != "" ==> d.database.redis.host == s.database.redis.host) &&
            (s.database.redis.port != 0 ==> d.database.redis.port == s.database.redis.port) &&
            (s.logging.level != "" ==> d.logging.level == s.logging.level) &&
            (s.logging.file != "" ==> d.logging.file == s.logging.file) &&
            (s.server.host != "" ==> d.server.host == s.server.host) &&
            (s.server.port != 0 ==> d.server.port == s.server.port) &&
            (s.cache.ttl != 0 ==> d.cache.ttl == s.cache.ttl) &&
            d.database.mysql.user == s.database.mysql.user &&
            d.database.mysql.password == s.database.mysql.password &&
            d.database.redis.password == s.database.redis.password && d.database.redis.db == s.database.redis.db &&
            d.exchange == s.exchange.(baseUrl := ProductionUrl)
  {
  }

  /** Applying the defaults twice is applying them once. */
  lemma DefaultsIdempotent(s: Settings)
    ensures WithDefaults(WithDefaults(s)) == WithDefaults(s)
  {
  }

  /** The test key pair is selected exactly when the environment is
      "test"; otherwise the production pair. The base URL is the production
      endpoint either way, and nothing else changes. */
  lemma KeysSelected(s: Settings)
    ensures var k := WithSelectedKeys(s);
            (s.environment == "test" ==> k.exchange.apiKey == s.exchange.testApiKey &&
                                         k.exchange.apiSecret == s.exchange.testApiSecret) &&
            (s.environment != "test" ==> k.exchange.apiKey == s.exchange.prodApiKey &&
                                         k.exchange.apiSecret == s.exchange.prodApiSecret) &&
            k.exchange.baseUrl == ProductionUrl &&
            k.environment == s.environment && k.database == s.database && k.logging == s.logging &&
            k.server == s.server && k.cache == s.cache
  {
  }

  /** After loading (defaults, then keys) a configuration without an
      environment is a production one and uses the production keys. */
  lemma LoadedDefaultsToProduction(s: Settings)
    requires s.environment == ""
    ensures var l := WithSelectedKeys(WithDefaults(s));
            l.environment == "production" && l.exchange.apiKey == s.exchange.prodApiKey &&
            l.exchange.apiSecret == s.exchange.prodApiSecret && l.exchange.baseUrl == ProductionUrl
  {
  }

  /** The `*Config` both functions update in place. */
  class Config {
    var environment: string
    var database: Database
    var exchange: Exchange
    var logging: Logging
    var server: Server
    var cache: Cache

    function Value(): Settings
      reads this
    {
      Settings(environment, database, exchange, logging, server, cache)
    }

    constructor (s: Settings)
      ensures Value() == s
    {
      environment := s.environment;
      database := s.database;
      exchange := s.exchange;
      logging := s.logging;
      server := s.server;
      cache := s.cache;
    }

    /** setDefaults: one assignment per empty field, then the base URL. */
    method SetDefaults()
      modifies this
      ensures Value() == WithDefaults(old(Value()))
    {
      if environment == "" {
        environment := "production";
      }
      SetDatabaseDefaults();
      if exchange.baseUrl == "" {
        exchange := exchange.(baseUrl := ProductionUrl);
      }
      if exchange.baseUrl != ProductionUrl {
        exchange := exchange.(baseUrl := ProductionUrl);
      }
      SetServiceDefaults();
    }

    /** The logging, server and cache part of setDefaults. */
    method SetServiceDefaults()
      modifies this
      ensures logging == Logging(OrString(old(logging).level, "info"), OrString(old(logging).file, "logs/indicators.log"))
      ensures server == Server(OrString(old(server).host, "0.0.0.0"), OrInt(old(server).port, 8080))
      ensures cache == Cache(OrInt(old(cache).ttl, 300))
      ensures environment == old(environment) && database == old(database) && exchange == old(exchange)
    {
      if logging.level == "" {
        logging := logging.(level := "info");
      }
      if logging.file == "" {
        logging := logging.(file := "logs/indicators.log");
      }
      if server.host == "" {
        server := server.(host := "0.0.0.0");
      }
      if server.port == 0 {
        server := server.(port := 8080);
      }
      if cache.ttl == 0 {
        cache := cache.(ttl := 300);
      }
    }

    /** The MySQL and Redis part of setDefaults. */
    method SetDatabaseDefaults()
      modifies this
      ensures database == DatabaseDefaults(old(database))
      ensures environment == old(environment) && exchange == old(exchange) && logging == old(logging)
      ensures server == old(server) && cache == old(cache)
    {
      var my := database.mysql;
      var rd := database.redis;
      if my.host == "" {
        my := my.(host := "localhost");
      }
      if my.port == 0 {
        my := my.(port := 3306);
      }
      if my.database == "" {
        my := my.(database := "binance_indicators");
      }
      if rd.host == "" {
        rd := rd.(host := "localhost");
      }
      if rd.port == 0 {
        rd := rd.(port := 6379);
      }
      database := Database(my, rd);
    }

    /** selectAPIKeys. */
    method SelectApiKeys()
      modifies this
      ensures Value() == WithSelectedKeys(old(Value()))
    {
      var isTest := environment == "test";
      if isTest {
        exchange := exchange.(apiKey := exchange.testApiKey, apiSecret := exchange.testApiSecret);
      } else {
        exchange := exchange.(apiKey := exchange.prodApiKey, apiSecret := exchange.prodApiSecret);
      }
      exchange := exchange.(baseUrl := ProductionUrl);
    }
  }
}
