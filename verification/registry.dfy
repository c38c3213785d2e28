/**
 * The driver registry: concrete stores are created by name through the
 * factory each driver registered. The registry is passed explicitly as a
 * map from driver name to factory; the store a factory builds is left
 * abstract as the type parameter S.
 */
module Registry {

  /** A value or the text of the error that prevented it. */
  datatype Result<T> = Ok(value: T) | Err(message: string)

  /** A driver's constructor: from its configuration string to a store, or an error. */
  type Factory<S> = string -> Result<S>

  const NotFoundPrefix := "driver \""
  const NotFoundSuffix := "\" not found"

  /** The error text for an unknown driver: the name between double quotes. */
  function NotFoundMessage(driver: string): (m: string)
    ensures |m| == |NotFoundPrefix| + |driver| + |NotFoundSuffix|
    ensures m[..|NotFoundPrefix|] == NotFoundPrefix
    ensures m[|NotFoundPrefix|..|m| - |NotFoundSuffix|] == driver
    ensures m[|m| - |NotFoundSuffix|..] == NotFoundSuffix
  {
    NotFoundPrefix + driver + NotFoundSuffix
  }

  /**
   * Creates a store with the factory registered under `driver`. An unknown
   * driver is an error naming it; otherwise the factory's own result, store
   * or error, is passed on unchanged.
   */
  function New<S>(factories: map<string, Factory<S>>, driver: string, config: string): (r: Result<S>)
    ensures driver !in factories ==> r == Err(NotFoundMessage(driver))
    ensures driver in factories ==> r == factories[driver](config)
  {
    if driver !in factories then Err(NotFoundMessage(driver))
    else factories[driver](config)
  }

  /** A store comes back exactly when the driver is registered and its factory succeeds. */
  lemma NewSucceedsIff<S>(factories: map<string, Factory<S>>, driver: string, config: string)
    ensures New(factories, driver, config).Ok? <==> driver in factories && factories[driver](config).Ok?
    ensures New(factories, driver, config).Ok? ==> New(factories, driver, config).value == factories[driver](config).value
  {
  }

  /** The not-found error for two different names are different: the error identifies the driver. */
  lemma NotFoundMessageInjective(d1: string, d2: string)
    requires NotFoundMessage(d1) == NotFoundMessage(d2)
    ensures d1 == d2
  {
    var m := NotFoundMessage(d1);
    assert d1 == m[|NotFoundPrefix|..|m| - |NotFoundSuffix|];
  }

  /** Only the entry of the requested driver matters: other registrations do not change the result. */
  lemma NewDependsOnlyOnDriver<S>(factories: map<string, Factory<S>>, other: map<string, Factory<S>>, driver: string, config: string)
    requires driver in factories <==> driver in other
    requires driver in factories ==> factories[driver] == other[driver]
    ensures New(factories, driver, config) == New(other, driver, config)
  {
  }
}
