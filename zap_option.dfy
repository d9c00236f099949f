/**
  The enrichment the cloud logger attaches to its records: a service-context
  block naming the service, and a type tag that marks records as
  Error Reporting events (zap_option.go).
*/
module ZapOption {
  import opened Wrappers
  import opened Engine

  datatype ServiceContext = ServiceContext(service: string)

  /** Writes the service context into an object encoder; it never fails. */
  function MarshalLogObject(s: ServiceContext, enc: seq<Entry>): (r: (seq<Entry>, Option<string>))
    ensures r.1 == None
    ensures |r.0| == |enc| + 1 && r.0[..|enc|] == enc
    ensures r.0[|enc|] == Entry("service", s.service)
  {
    (enc + [Entry("service", s.service)], None)
  }

  const ServiceContextKey := "serviceContext"
  const TypeKey := "@type"
  const TypeValue := "type.googleapis.com/google.devtools.clouderrorreporting.v1beta1.ReportedErrorEvent"

  /** The field that names the service, as the marshaller encodes it. */
  function ServiceContextField(serviceName: string): Field {
    Field(ServiceContextKey, ObjectValue(MarshalLogObject(ServiceContext(serviceName), []).0))
  }

  /** The Error Reporting type tag. */
  const TypeField := Field(TypeKey, StringValue(TypeValue))

  /** Does the handle attach a service-context block naming `serviceName`? */
  predicate CarriesService(h: Handle, serviceName: string) {
    ServiceContextField(serviceName) in h.fields
  }

  /** Does the handle attach the Error Reporting type tag? */
  predicate CarriesTypeTag(h: Handle) {
    TypeField in h.fields
  }

  /** Adds exactly one field, "serviceContext", whose object holds one entry "service". */
  function GetCloudServiceContextOption(serviceName: string): (o: ZapOption)
    ensures |o.fields| == 1 && o.fields[0].key == "serviceContext"
    ensures o.fields[0].value == ObjectValue([Entry("service", serviceName)])
  {
    Fields([ServiceContextField(serviceName)])
  }

  /**
    Derives a handle that also attaches "@type" with the constant type tag;
    the configuration and the existing fields are kept as they were.
  */
  function AddCloudErrorReportingOption(zapLogger: Handle): (r: Handle)
    ensures r.config == zapLogger.config
    ensures |r.fields| == |zapLogger.fields| + 1 && r.fields[..|zapLogger.fields|] == zapLogger.fields
    ensures r.fields[|zapLogger.fields|] ==
              Field("@type", StringValue("type.googleapis.com/google.devtools.clouderrorreporting.v1beta1.ReportedErrorEvent"))
  {
    With(zapLogger, [Field(TypeKey, StringValue(TypeValue))])
  }

  /** The service context field identifies its service: distinct names give distinct fields. */
  lemma ServiceContextInjective(a: string, b: string)
    requires ServiceContextField(a) == ServiceContextField(b)
    ensures a == b
  {
    assert ServiceContextField(a).value.entries[0].value == a;
  }

  /**
    The derived handle carries the type tag and everything the original
    carries, and no other field; the tag does not depend on the handle.
  */
  lemma ErrorReportingAddsOnlyTheTag(h: Handle, f: Field)
    ensures CarriesTypeTag(AddCloudErrorReportingOption(h))
    ensures f in AddCloudErrorReportingOption(h).fields <==> f in h.fields || f == TypeField
    ensures forall name :: CarriesService(AddCloudErrorReportingOption(h), name) <==> CarriesService(h, name)
  {
    var r := AddCloudErrorReportingOption(h);
    assert r.fields == h.fields + [TypeField];
    forall name ensures CarriesService(r, name) <==> CarriesService(h, name) {
      assert ServiceContextField(name) != TypeField;
    }
  }
}
