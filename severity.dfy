/** The `'low' | 'medium' | 'high' | 'critical'` severity union shared by alerts and interactions. */
module Severity {

  datatype Level = Low | Medium | High | Critical
}
