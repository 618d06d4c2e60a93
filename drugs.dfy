/**
 The drug identifiers that the classifier and the key-to-embedding dictionary
 share. An id is the drug's name as the loader yields it.
 */
module Drugs {

  type DrugId = string
}
